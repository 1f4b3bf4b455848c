/** `StrictTransportSecurityConfiguration`: the Strict-Transport-Security
    value `max-age=<n>;[ includeSubDomains;][ preload]`. */
module StrictTransportSecurityConfiguration {
  import opened Http
  import opened Text
  import HeaderKey

  /** The constructor's defaults are those of the Swift initializer: one year,
      subdomains included, preload requested. */
  datatype Configuration = Configuration(maxAge: Int64 := 31536000, includeSubdomains: bool := true, preload: bool := true)

  const SubdomainsClause: string := " includeSubDomains;"
  const PreloadClause: string := " preload"

  /** The mandatory first clause, with its own terminating semicolon. */
  function MaxAgeClause(maxAge: int): (s: string)
    ensures |s| > 9 && s[..8] == "max-age=" && s[|s| - 1] == ';'
  {
    "max-age=" + IntToDecimal(maxAge) + ";"
  }

  predicate EndsWith(s: string, suffix: string) {
    |suffix| <= |s| && s[|s| - |suffix|..] == suffix
  }

  /** The header value: the max-age clause, then the optional subdomains and
      preload clauses, in that order. */
  function HeaderValue(c: Configuration): (v: string)
    ensures MaxAgeClause(c.maxAge) <= v
  {
    MaxAgeClause(c.maxAge) + Flags(c.includeSubdomains, c.preload)
  }

  /** What follows the max-age clause. */
  function Flags(includeSubdomains: bool, preload: bool): string {
    (if includeSubdomains then SubdomainsClause else "") + (if preload then PreloadClause else "")
  }

  /** The value ends with ` preload` exactly when preload is requested, and
      with a semicolon otherwise; with neither flag it is the bare max-age
      clause; the subdomains clause, when present, comes straight after the
      max-age clause and so before any preload clause. */
  lemma {:induction false} HeaderValueShape(c: Configuration)
    ensures c.preload <==> EndsWith(HeaderValue(c), PreloadClause)
    ensures !c.preload ==> HeaderValue(c)[|HeaderValue(c)| - 1] == ';'
    ensures !c.includeSubdomains && !c.preload ==> HeaderValue(c) == MaxAgeClause(c.maxAge)
    ensures c.includeSubdomains ==> MaxAgeClause(c.maxAge) + SubdomainsClause <= HeaderValue(c)
  {
    var m := MaxAgeClause(c.maxAge);
    var v := HeaderValue(c);
    if c.preload {
      assert v[|v| - |PreloadClause|..] == PreloadClause;
    } else {
      assert v[|v| - 1] == ';' by {
        if c.includeSubdomains {
          assert v == m + SubdomainsClause;
        } else {
          assert v == m;
        }
      }
      assert !EndsWith(v, PreloadClause) by {
        if |PreloadClause| <= |v| {
          assert v[|v| - |PreloadClause|..][|PreloadClause| - 1] == ';';
        }
      }
    }
    if c.includeSubdomains {
      assert v == m + SubdomainsClause + (if c.preload then PreloadClause else "");
    }
  }

  /** Reads what follows the max-age clause back into the two flags. */
  function ParseFlags(tail: string): Option<(bool, bool)> {
    if tail == "" then Some((false, false))
    else if tail == SubdomainsClause then Some((true, false))
    else if tail == PreloadClause then Some((false, true))
    else if tail == SubdomainsClause + PreloadClause then Some((true, true))
    else None
  }

  lemma ParseFlagsRoundTrip(includeSubdomains: bool, preload: bool)
    ensures ParseFlags(Flags(includeSubdomains, preload)) == Some((includeSubdomains, preload))
  {
    assert SubdomainsClause != PreloadClause;
    assert SubdomainsClause + PreloadClause != PreloadClause;
  }

  /** Reads a header value back into the configuration that produces it. */
  function ParseHeaderValue(v: string): (r: Option<Configuration>)
    ensures r.Some? ==> |v| > 9 && v[..8] == "max-age="
  {
    if |v| < 8 || v[..8] != "max-age=" then None
    else
      var rest := v[8..];
      var k := IndexOf(rest, ';');
      if k == |rest| then None
      else match (ParseInt(rest[..k]), ParseFlags(rest[k + 1..]))
        case (Some(n), Some((sub, pre))) =>
          if -0x8000_0000_0000_0000 <= n < 0x8000_0000_0000_0000 then Some(Configuration(n, sub, pre)) else None
        case _ => None
  }

  lemma IndexOfAfter(d: string, t: string)
    requires forall i :: 0 <= i < |d| ==> d[i] != ';'
    ensures IndexOf(d + ";" + t, ';') == |d|
  {
    var s := d + ";" + t;
    assert s[|d|] == ';';
  }

  /** The value splits at its first semicolon into the rendered max-age and
      the flag clauses. */
  lemma HeaderValueSplit(c: Configuration)
    ensures HeaderValue(c)[..8] == "max-age="
    ensures HeaderValue(c)[8..] == IntToDecimal(c.maxAge) + ";" + Flags(c.includeSubdomains, c.preload)
  {
    var v := HeaderValue(c);
    assert v == "max-age=" + (IntToDecimal(c.maxAge) + ";" + Flags(c.includeSubdomains, c.preload));
  }

  /** The header value determines the configuration: parsing it gives the
      configuration back. */
  lemma HeaderValueRoundTrip(c: Configuration)
    ensures ParseHeaderValue(HeaderValue(c)) == Some(c)
  {
    var d := IntToDecimal(c.maxAge);
    var tail := Flags(c.includeSubdomains, c.preload);
    var rest := HeaderValue(c)[8..];
    HeaderValueSplit(c);
    IndexOfAfter(d, tail);
    assert rest[..|d|] == d;
    assert rest[|d| + 1..] == tail;
    IntToDecimalRoundTrip(c.maxAge);
    ParseFlagsRoundTrip(c.includeSubdomains, c.preload);
  }

  /** Distinct configurations give distinct header values. */
  lemma HeaderValueInjective(a: Configuration, b: Configuration)
    ensures HeaderValue(a) == HeaderValue(b) ==> a == b
  {
    HeaderValueRoundTrip(a);
    HeaderValueRoundTrip(b);
  }

  lemma DecimalThirty()
    ensures IntToDecimal(30) == "30"
  {
    assert NatToDecimal(3) == "3";
  }

  lemma MaxAgeThirty()
    ensures MaxAgeClause(30) == "max-age=30;"
  {
    DecimalThirty();
  }

  /** The four flag combinations at `max-age=30`, one lemma each. */
  lemma ValueAtThirtyBothFlags()
    ensures HeaderValue(Configuration(30, true, true)) == "max-age=30; includeSubDomains; preload"
  {
    MaxAgeThirty();
    assert Flags(true, true) == " includeSubDomains; preload";
  }

  lemma ValueAtThirtyPreloadOnly()
    ensures HeaderValue(Configuration(30, false, true)) == "max-age=30; preload"
  {
    MaxAgeThirty();
    assert Flags(false, true) == " preload";
  }

  lemma ValueAtThirtySubdomainsOnly()
    ensures HeaderValue(Configuration(30, true, false)) == "max-age=30; includeSubDomains;"
  {
    MaxAgeThirty();
    assert Flags(true, false) == " includeSubDomains;";
  }

  lemma ValueAtThirtyNoFlags()
    ensures HeaderValue(Configuration(30, false, false)) == "max-age=30;"
  {
    MaxAgeThirty();
    assert Flags(false, false) == "";
  }

  lemma DecimalOneYear()
    ensures IntToDecimal(31536000) == "31536000"
  {
    assert NatToDecimal(3) == "3";
    NatToDecimalAppend(3, 1);
    NatToDecimalAppend(31, 5);
    NatToDecimalAppend(315, 3);
    NatToDecimalAppend(3153, 6);
    NatToDecimalAppend(31536, 0);
    NatToDecimalAppend(315360, 0);
    NatToDecimalAppend(3153600, 0);
  }

  lemma MaxAgeOneYear()
    ensures MaxAgeClause(31536000) == "max-age=31536000;"
  {
    DecimalOneYear();
  }

  /** The default configuration's value, written clause by clause:
      `max-age=31536000; includeSubDomains; preload`. */
  lemma DefaultValue()
    ensures HeaderValue(Configuration()) == "max-age=31536000;" + " includeSubDomains;" + " preload"
  {
    MaxAgeOneYear();
    assert Flags(true, true) == " includeSubDomains;" + " preload";
  }

  /** Builds the value clause by clause, then writes it, replacing any
      earlier Strict-Transport-Security value. */
  method SetHeader(c: Configuration, response: Response)
    modifies response
    ensures response.headers == old(response.headers)[HeaderKey.StrictTransportSecurity := HeaderValue(c)]
  {
    var headerValue := "max-age=" + IntToDecimal(c.maxAge) + ";";
    if c.includeSubdomains {
      headerValue := headerValue + " includeSubDomains;";
    }
    if c.preload {
      headerValue := headerValue + " preload";
    }
    assert headerValue == HeaderValue(c);
    response.SetHeader(HeaderKey.StrictTransportSecurity, headerValue);
  }
}
