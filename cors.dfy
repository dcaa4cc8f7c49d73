/** The CORS origin decision of src/config/cors.ts. */
module Cors {
  import opened Common
  import opened Strings

  /** Host names of Vercel preview deployments end with this. */
  const VercelSuffix: string := ".vercel.app"

  /**
   * `isOriginAllowed`: `origins` is the configured list (the comma-split, trimmed
   * CORS_ORIGIN setting). No origin (or the empty one) is allowed, as is an exact
   * entry of the list and any Vercel preview host; everything else is refused.
   */
  predicate IsOriginAllowed(origins: seq<string>, origin: Option<string>)
  {
    if !Truthy(origin) then true
    else if origin.value in origins then true
    else if EndsWith(origin.value, VercelSuffix) then true
    else false
  }

  /** What `corsOptions.origin` passes to its callback: `(err, allow?)`. */
  datatype CorsCallback = CorsCallback(err: Option<string>, allow: Option<bool>)

  /** `corsOptions.origin`: `(null, true)` when allowed, otherwise an error and no flag. */
  function CorsOrigin(origins: seq<string>, origin: Option<string>): (r: CorsCallback)
    ensures r == CorsCallback(None, Some(true)) <==> IsOriginAllowed(origins, origin)
    ensures !IsOriginAllowed(origins, origin) <==> r == CorsCallback(Some("Not allowed by CORS"), None)
  {
    if IsOriginAllowed(origins, origin) then CorsCallback(None, Some(true))
    else CorsCallback(Some("Not allowed by CORS"), None)
  }

  /** Requests without an origin (non-browser clients) pass. */
  lemma AbsentOriginAllowed(origins: seq<string>)
    ensures IsOriginAllowed(origins, None)
    ensures IsOriginAllowed(origins, Some(""))
  {
  }

  /** A configured origin passes. */
  lemma ListedOriginAllowed(origins: seq<string>, k: nat)
    requires k < |origins|
    ensures IsOriginAllowed(origins, Some(origins[k]))
  {
  }

  /** Any `<host>.vercel.app`, whatever the list holds, passes. */
  lemma VercelPreviewAllowed(origins: seq<string>, host: string)
    ensures IsOriginAllowed(origins, Some(host + VercelSuffix))
  {
    EndsWithConcat(host, VercelSuffix);
  }

  /**
   * The decision in terms of the origin's shape: allowed exactly when it is absent or
   * empty, listed, or some host followed by `.vercel.app`.
   */
  lemma AllowedIff(origins: seq<string>, origin: Option<string>)
    ensures IsOriginAllowed(origins, origin) <==>
      || !Truthy(origin)
      || origin.value in origins
      || (|origin.value| >= |VercelSuffix| &&
          origin.value == origin.value[..|origin.value| - |VercelSuffix|] + VercelSuffix)
  {
    if Truthy(origin) && EndsWith(origin.value, VercelSuffix) {
      EndsWithSplits(origin.value, VercelSuffix);
    }
    if Truthy(origin) && |origin.value| >= |VercelSuffix| &&
       origin.value == origin.value[..|origin.value| - |VercelSuffix|] + VercelSuffix {
      EndsWithConcat(origin.value[..|origin.value| - |VercelSuffix|], VercelSuffix);
    }
  }

  /** Configuring more origins never refuses an origin that was allowed. */
  lemma AllowedMonotone(origins: seq<string>, more: seq<string>, origin: Option<string>)
    requires forall o :: o in origins ==> o in more
    requires IsOriginAllowed(origins, origin)
    ensures IsOriginAllowed(more, origin)
  {
  }

  /** Concrete cases: a look-alike host and a scheme-only difference are refused. */
  lemma RefusedExamples()
    ensures !IsOriginAllowed(["https://app.example.com"], Some("https://evil.vercel.app.example.org"))
    ensures !IsOriginAllowed(["https://app.example.com"], Some("http://app.example.com"))
  {
    var a := "https://evil.vercel.app.example.org";
    assert a[|a| - |VercelSuffix|..] != VercelSuffix by {
      assert a[|a| - 1] == 'g';
    }
    var b := "http://app.example.com";
    assert b[|b| - |VercelSuffix|..] != VercelSuffix by {
      assert b[|b| - 1] == 'm';
    }
    assert b != "https://app.example.com" by {
      assert b[4] == ':';
    }
  }
}
