/**
 * The server-URL rules shared by the screens: the normalisation the Settings
 * screen applies before saving, the "ensure :8000" helper every screen applies
 * before a request, the joining of an endpoint path onto that base, and the
 * resolution of a relative `tts_url` returned by the server.
 */
module ServerUrl {
  import opened Wrappers
  import opened Text
  import Decimal

  const Port := ":8000"
  const PortSuffix := ":8000/"

  predicate HasScheme(u: string) {
    StartsWith(u, "http://") || StartsWith(u, "https://")
  }

  /** A trimmed input that is nothing but a scheme, for which normalisation loses a `/`. */
  predicate IsBareScheme(t: string) {
    t == "http://" || t == "https://"
  }

  /** The input after trimming, with `http://` in front unless it already has a scheme. */
  function WithScheme(t: string): (w: string)
    ensures HasScheme(w)
    ensures w == t <==> HasScheme(t)
    ensures !HasScheme(t) ==> w == "http://" + t
  {
    if HasScheme(t) then t else "http://" + t
  }

  /**
   * The URL `handleSaveUrl` stores for the text typed into the Settings
   * field, or `None` when the trimmed text is empty (the save is refused).
   */
  function Normalize(input: string): Option<string> {
    var t := Trim(input);
    if t == "" then None
    else
      var w := WithScheme(t);
      Some(if Contains(w, Port) then w else StripTrailingSlash(w) + PortSuffix)
  }

  /** Appending `:8000/` always yields a URL that contains `:8000`. */
  lemma PortSuffixHasPort(s: string)
    ensures Contains(s + PortSuffix, Port)
  {
    assert StartsWith(PortSuffix, Port);
    ContainsAfterPrefix(s, PortSuffix, Port);
  }

  /**
   * `serverUrlWithPort`: the configured URL itself when it contains `:8000`,
   * otherwise the URL without one trailing `/` followed by `:8000/`.
   */
  function WithPort(u: string): string {
    if Contains(u, Port) then u else StripTrailingSlash(u) + PortSuffix
  }

  /**
   * The port helper always yields a URL that contains `:8000`; it keeps a
   * URL that has one, and otherwise ends in `:8000/` after what is left of
   * the URL once a trailing `/` is dropped.
   */
  lemma WithPortShape(u: string)
    ensures Contains(WithPort(u), Port)
    ensures Contains(u, Port) ==> WithPort(u) == u
    ensures !Contains(u, Port) ==>
      EndsWith(WithPort(u), PortSuffix) && StartsWith(WithPort(u), StripTrailingSlash(u))
  {
    if !Contains(u, Port) {
      PortSuffixHasPort(StripTrailingSlash(u));
      var r := StripTrailingSlash(u) + PortSuffix;
      assert r[..|StripTrailingSlash(u)|] == StripTrailingSlash(u);
    }
  }

  /** Applying the port helper twice is the same as applying it once. */
  lemma WithPortIdempotent(u: string)
    ensures WithPort(WithPort(u)) == WithPort(u)
  {
    WithPortShape(u);
  }

  /** Empty-after-trim input is refused, and only that input. */
  lemma NormalizeRefusesBlank(input: string)
    ensures Normalize(input).None? <==> AllWhitespace(input)
  {
    TrimEmptyIff(input);
  }

  /**
   * Every URL the Settings screen saves contains `:8000`, so the port helper
   * of the other screens leaves it as it is; a URL that did not contain the
   * port before ends in `/`.
   */
  lemma NormalizeHasPort(input: string)
    requires Normalize(input).Some?
    ensures Contains(Normalize(input).value, Port)
    ensures WithPort(Normalize(input).value) == Normalize(input).value
    ensures !Contains(WithScheme(Trim(input)), Port) ==> EndsWith(Normalize(input).value, "/")
  {
    var w := WithScheme(Trim(input));
    if !Contains(w, Port) {
      PortSuffixHasPort(StripTrailingSlash(w));
    }
  }

  /** Removing one character from the end keeps a prefix of length at most `|s| - 1`. */
  lemma StripKeepsPrefix(s: string, p: string)
    requires StartsWith(s, p) && |p| < |s|
    ensures StartsWith(StripTrailingSlash(s), p)
  {
  }

  /** A saved URL starts with `http://` or `https://`, unless the input was a bare scheme. */
  lemma NormalizeHasScheme(input: string)
    requires Normalize(input).Some? && !IsBareScheme(Trim(input))
    ensures HasScheme(Normalize(input).value)
  {
    var t := Trim(input);
    var w := WithScheme(t);
    if !Contains(w, Port) {
      if StartsWith(t, "http://") {
        assert |t| > 7;
        StripKeepsPrefix(w, "http://");
      } else if StartsWith(t, "https://") {
        assert |t| > 8;
        StripKeepsPrefix(w, "https://");
      } else {
        assert w == "http://" + t && w[..7] == "http://";
        StripKeepsPrefix(w, "http://");
      }
      var n := StripTrailingSlash(w) + PortSuffix;
      assert n[..|StripTrailingSlash(w)|] == StripTrailingSlash(w);
    }
  }

  /** Dropping a trailing `/` keeps every occurrence of a text that does not end in `/`. */
  lemma StripKeepsOccurrence(s: string, t: string)
    requires Contains(s, t) && t != [] && t[|t| - 1] != '/'
    ensures Contains(StripTrailingSlash(s), t)
  {
    ContainsIff(s, t);
    var i :| OccursAt(s, t, i);
    var r := StripTrailingSlash(s);
    if r != s {
      assert r == s[..|s| - 1] && s[|s| - 1] == '/';
      assert s[i + |t| - 1] == s[i..i + |t|][|t| - 1] == t[|t| - 1];
      assert i + |t| <= |r|;
      assert r[i..i + |t|] == s[i..i + |t|];
    }
    assert OccursAt(r, t, i);
    ContainsIff(r, t);
  }

  /**
   * `fullTtsUrl`: the port-qualified base without one trailing `/`, followed
   * by the relative `tts_url` of the response.
   */
  function ResolveTts(u: string, ttsPath: string): string {
    StripTrailingSlash(WithPort(u)) + ttsPath
  }

  /**
   * The resolved URL keeps the port and ends in the relative path; under a
   * base that ends in `/`, a path that starts with `/` lands exactly one `/`
   * after the base's last segment.
   */
  lemma ResolveTtsShape(u: string, ttsPath: string)
    ensures Contains(ResolveTts(u, ttsPath), Port) && EndsWith(ResolveTts(u, ttsPath), ttsPath)
    ensures EndsWith(WithPort(u), "/") && StartsWith(ttsPath, "/") ==>
      ResolveTts(u, ttsPath) == WithPort(u) + ttsPath[1..]
  {
    var b := StripTrailingSlash(WithPort(u));
    BaseKeepsPort(u);
    ContainsBeforeSuffix(b, ttsPath, Port);
    assert (b + ttsPath)[|b + ttsPath| - |ttsPath|..] == ttsPath;
    if EndsWith(WithPort(u), "/") && StartsWith(ttsPath, "/") {
      assert b + "/" == WithPort(u);
      assert ttsPath[..1] == "/";
      assert ttsPath == "/" + ttsPath[1..] by {
        assert ttsPath == ttsPath[..1] + ttsPath[1..];
      }
      assert b + ttsPath == (b + "/") + ttsPath[1..];
    }
  }

  /** The port-qualified base keeps `:8000` once a trailing `/` is dropped. */
  lemma BaseKeepsPort(u: string)
    ensures Contains(StripTrailingSlash(WithPort(u)), Port)
  {
    WithPortShape(u);
    assert Port[|Port| - 1] == '0';
    StripKeepsOccurrence(WithPort(u), Port);
  }

  /**
   * The request URL the screens build, as written: the port-qualified base
   * with the endpoint path glued on (`${serverUrlWithPort}tts`).
   */
  function EndpointAsWritten(u: string, path: string): string {
    WithPort(u) + path
  }

  /**
   * The request URL with the separator the endpoint needs: the
   * port-qualified base without a trailing `/`, then `/`, then the path.
   */
  function Endpoint(u: string, path: string): string {
    StripTrailingSlash(WithPort(u)) + "/" + path
  }

  /**
   * The request URL keeps the port, and the endpoint path follows the base
   * after exactly one `/`.
   */
  lemma EndpointShape(u: string, path: string)
    ensures Contains(Endpoint(u, path), Port) && EndsWith(Endpoint(u, path), "/" + path)
    ensures StartsWith(Endpoint(u, path), StripTrailingSlash(WithPort(u)))
  {
    var b := StripTrailingSlash(WithPort(u));
    BaseKeepsPort(u);
    ContainsBeforeSuffix(b, "/" + path, Port);
    assert b + "/" + path == b + ("/" + path);
    assert (b + "/" + path)[..|b|] == b;
  }

  /** Where the base ends in `/`, which is every URL saved without a port, both forms agree. */
  lemma EndpointAgreesWhenSlash(u: string, path: string)
    requires EndsWith(WithPort(u), "/")
    ensures Endpoint(u, path) == EndpointAsWritten(u, path)
  {
    assert StripTrailingSlash(WithPort(u)) + "/" == WithPort(u);
  }

  /** The path of the statement-fetch request for statement `n`. */
  function StatementPath(n: nat): string {
    "statements/" + Decimal.NatToString(n)
  }

  /** The path of the training-audio upload for statement `n`. */
  function UploadPath(n: nat): string {
    "upload-statement-audio/" + Decimal.NatToString(n)
  }

  /** Different statement numbers give different request paths. */
  lemma StatementPathInjective(m: nat, n: nat)
    requires StatementPath(m) == StatementPath(n)
    ensures m == n
  {
    var p := "statements/";
    assert StatementPath(m)[|p|..] == Decimal.NatToString(m);
    assert StatementPath(n)[|p|..] == Decimal.NatToString(n);
    Decimal.ValueOfNatToString(m);
    Decimal.ValueOfNatToString(n);
  }
}
