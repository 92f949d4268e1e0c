/**
 * Properties of the Settings-screen normalisation that relate several
 * applications of it, and concrete inputs that show how it behaves.
 */
module ServerUrlFacts {
  import opened Wrappers
  import opened Text
  import opened ServerUrl

  /** What `Normalize` returns for an input with nothing to trim and no scheme. */
  lemma NormalizeAddsScheme(t: string)
    requires t != [] && !IsWhitespace(t[0]) && !IsWhitespace(t[|t| - 1]) && !HasScheme(t)
    ensures Normalize(t) == Some(if Contains("http://" + t, Port) then "http://" + t
                                 else StripTrailingSlash("http://" + t) + PortSuffix)
  {
    TrimFixesTrimmed(t);
  }

  /** What `Normalize` returns for an input with nothing to trim and a scheme. */
  lemma NormalizeKeepsScheme(t: string)
    requires t != [] && !IsWhitespace(t[0]) && !IsWhitespace(t[|t| - 1]) && HasScheme(t)
    ensures Normalize(t) == Some(if Contains(t, Port) then t else StripTrailingSlash(t) + PortSuffix)
  {
    TrimFixesTrimmed(t);
  }

  /** A string without the digit `8` cannot contain `:8000`. */
  lemma LacksPort(w: string)
    requires '8' !in w
    ensures !Contains(w, Port)
  {
    if Contains(w, Port) {
      OccurrenceCharacters(w, Port, 1);
    }
  }

  /** What `Normalize` returns, spelled out step by step. */
  lemma NormalizeSteps(input: string)
    requires Normalize(input).Some?
    ensures Trim(input) != []
    ensures var w := WithScheme(Trim(input));
      Normalize(input).value == if Contains(w, Port) then w else StripTrailingSlash(w) + PortSuffix
  {
  }

  /** A saved URL starts with `h` and ends in the last character of the trimmed input or in `/`. */
  lemma NormalizeEnds(input: string)
    requires Normalize(input).Some?
    ensures var n := Normalize(input).value; var t := Trim(input);
      n != [] && t != [] && n[0] == 'h' && (n[|n| - 1] == '/' || n[|n| - 1] == t[|t| - 1])
  {
    NormalizeSteps(input);
    var t := Trim(input);
    var w := WithScheme(t);
    assert w[0] == 'h' && w[|w| - 1] == t[|t| - 1];
    if !Contains(w, Port) {
      var b := StripTrailingSlash(w);
      assert |b| > 0 ==> b[0] == w[0];
    }
  }

  /** A saved URL has no whitespace to trim. */
  lemma NormalizeIsTrimmed(input: string)
    requires Normalize(input).Some?
    ensures Trim(Normalize(input).value) == Normalize(input).value
  {
    NormalizeEnds(input);
    TrimEnds(input);
    TrimFixesTrimmed(Normalize(input).value);
  }

  /** Normalising a saved URL again returns it unchanged (bare-scheme inputs excepted). */
  lemma NormalizeIdempotent(input: string)
    requires Normalize(input).Some? && !IsBareScheme(Trim(input))
    ensures Normalize(Normalize(input).value) == Normalize(input)
  {
    var n := Normalize(input).value;
    NormalizeEnds(input);
    TrimEnds(input);
    NormalizeHasScheme(input);
    NormalizeHasPort(input);
    NormalizeKeepsScheme(n);
  }

  /** A string that does not start with `h` has no scheme. */
  lemma NoSchemeWithoutH(t: string)
    requires t != [] && t[0] != 'h'
    ensures !HasScheme(t)
  {
    assert |t| >= 7 ==> t[..7][0] == t[0];
    assert |t| >= 8 ==> t[..8][0] == t[0];
  }

  /** The first step of normalising `example.com`: nothing to trim, no scheme. */
  lemma PlainHostSteps(plain: string)
    requires plain == "example.com"
    ensures Normalize(plain) == Some(if Contains("http://" + plain, Port) then "http://" + plain
                                     else StripTrailingSlash("http://" + plain) + PortSuffix)
  {
    NoSchemeWithoutH(plain);
    NormalizeAddsScheme(plain);
  }

  lemma PlainHostUrl(plain: string, w: string)
    requires plain == "example.com" && w == "http://" + plain
    ensures w == "http://example.com" && '8' !in w && StripTrailingSlash(w) == w
    ensures w + PortSuffix == "http://example.com:8000/"
  {
    assert w == "http://example.com";
  }

  /** `example.com` gains the `http://` scheme and the port. */
  lemma NormalizePlainHost(plain: string)
    requires plain == "example.com"
    ensures Normalize(plain) == Some("http://example.com:8000/")
  {
    PlainHostSteps(plain);
    var w := "http://" + plain;
    PlainHostUrl(plain, w);
    LacksPort(w);
  }

  lemma SecureHostUrl(secure: string)
    requires secure == "https://x.com/"
    ensures HasScheme(secure) && '8' !in secure
    ensures StripTrailingSlash(secure) + PortSuffix == "https://x.com:8000/"
  {
    assert secure[..8] == "https://";
    assert StripTrailingSlash(secure) == "https://x.com";
  }

  /** `https://x.com/` keeps its scheme, loses its trailing `/` and gains the port. */
  lemma NormalizeSecureHost(secure: string)
    requires secure == "https://x.com/"
    ensures Normalize(secure) == Some("https://x.com:8000/")
  {
    SecureHostUrl(secure);
    NormalizeKeepsScheme(secure);
    LacksPort(secure);
  }

  lemma BareSchemeUrl(input: string)
    requires IsBareScheme(input)
    ensures HasScheme(input) && '8' !in input
    ensures StripTrailingSlash(input) + PortSuffix == input[..|input| - 1] + PortSuffix
  {
    if input == "http://" {
      assert input[..7] == "http://";
    } else {
      assert input[..8] == "https://";
    }
  }

  lemma BareSchemeSaved(input: string)
    requires IsBareScheme(input)
    ensures Normalize(input) == Some(input[..|input| - 1] + PortSuffix)
  {
    BareSchemeUrl(input);
    NormalizeKeepsScheme(input);
    LacksPort(input);
  }

  lemma LostSlashHasNoScheme(saved: string)
    requires saved == "http:/:8000/" || saved == "https:/:8000/"
    ensures !HasScheme(saved)
  {
    if saved == "http:/:8000/" {
      assert saved[..7][6] != "http://"[6] && saved[..8][4] != "https://"[4];
    } else {
      assert saved[..7][4] != "http://"[4] && saved[..8][7] != "https://"[7];
    }
  }

  lemma BareSchemeDropsSlash(input: string)
    requires IsBareScheme(input)
    ensures input == "http://" ==> input[..|input| - 1] + PortSuffix == "http:/:8000/"
    ensures input == "https://" ==> input[..|input| - 1] + PortSuffix == "https:/:8000/"
  {
  }

  /** With a bare scheme as input the saved URL loses a `/` of the scheme, and with it the scheme. */
  lemma BareSchemeLosesSlash(input: string)
    requires IsBareScheme(input)
    ensures input == "http://" ==> Normalize(input) == Some("http:/:8000/")
    ensures input == "https://" ==> Normalize(input) == Some("https:/:8000/")
    ensures !HasScheme(Normalize(input).value)
  {
    BareSchemeSaved(input);
    BareSchemeDropsSlash(input);
    LostSlashHasNoScheme(input[..|input| - 1] + PortSuffix);
  }

  lemma BareSchemeResultUrl(saved: string, w: string)
    requires saved == "http:/:8000/" && w == "http://" + saved
    ensures !HasScheme(saved) && OccursAt(w, Port, 13)
  {
    NoSchemeWithoutH(saved[6..]);
    assert saved[6..][0] == saved[6];
    assert saved[..7][6] != "http://"[6];
    assert saved[..8][6] != "https://"[6];
    assert w[13..18] == ":8000";
  }

  /** The URL saved for a bare scheme changes when it is normalised again. */
  lemma BareSchemeResultRenormalized(saved: string)
    requires saved == "http:/:8000/"
    ensures Normalize(saved) == Some("http://" + saved)
  {
    var w := "http://" + saved;
    BareSchemeResultUrl(saved, w);
    ContainsIff(w, Port);
    NormalizeAddsScheme(saved);
  }

  lemma TypedPortUrl(typed: string, w: string)
    requires typed == "192.168.1.5:8000" && w == "http://" + typed
    ensures !HasScheme(typed) && OccursAt(w, Port, 18) && w == "http://192.168.1.5:8000"
  {
    NoSchemeWithoutH(typed);
    assert w[18..23] == ":8000";
  }

  /** An address typed with the port but without a trailing `/` is saved without one. */
  lemma NormalizeKeepsTypedPort(typed: string)
    requires typed == "192.168.1.5:8000"
    ensures Normalize(typed) == Some("http://192.168.1.5:8000")
  {
    var w := "http://" + typed;
    TypedPortUrl(typed, w);
    ContainsIff(w, Port);
    NormalizeAddsScheme(typed);
  }

  /**
   * For that saved URL the request URL runs the port into the endpoint
   * name: `:8000tts` instead of `:8000/tts`.
   */
  lemma EndpointAsWrittenLosesSeparator(saved: string)
    requires saved == "http://192.168.1.5:8000"
    ensures EndpointAsWritten(saved, "tts") == "http://192.168.1.5:8000tts"
    ensures Endpoint(saved, "tts") == "http://192.168.1.5:8000/tts"
  {
    assert OccursAt(saved, Port, 18) by {
      assert saved[18..23] == ":8000";
    }
    ContainsIff(saved, Port);
    assert WithPort(saved) == saved;
    assert saved[|saved| - 1] == '0';
    assert StripTrailingSlash(saved) == saved;
  }

  /**
   * For every URL the Settings screen saves from text without a port of its
   * own, the request URL the screens build has the one `/` the endpoint
   * needs: it is the corrected `Endpoint`.
   */
  lemma SavedUrlEndpoints(input: string, path: string)
    requires Normalize(input).Some? && !Contains(WithScheme(Trim(input)), Port)
    ensures EndpointAsWritten(Normalize(input).value, path) == Endpoint(Normalize(input).value, path)
    ensures EndsWith(EndpointAsWritten(Normalize(input).value, path), "/" + path)
  {
    NormalizeHasPort(input);
    EndpointAgreesWhenSlash(Normalize(input).value, path);
    EndpointShape(Normalize(input).value, path);
  }
}
