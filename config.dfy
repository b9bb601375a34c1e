/**
 * The backend's settings (backend/app/core/config.py): which settings the
 * `Settings` class declares, and the two parsers for the comma-separated
 * list of allowed CORS origins.
 */
module Config {
  import opened Wrappers
  import opened Text
  import opened Http

  /** The value handed to `parse_cors_origins`: a string, a list of strings, or anything else. */
  datatype CorsValue = CorsText(text: string) | CorsList(items: seq<string>) | CorsOther

  /** Each comma-separated piece of `s`, stripped; empty pieces stay. */
  function StripPieces(pieces: seq<string>): (r: seq<string>)
  {
    seq(|pieces|, i requires 0 <= i < |pieces| => PyStrip(pieces[i]))
  }

  /** `parse_cors_origins`. */
  function ParseCorsOrigins(v: CorsValue): seq<string>
  {
    match v
    case CorsText(s) => if s == [] then [] else StripPieces(SplitOn(s, ','))
    case CorsList(items) => items
    case CorsOther => []
  }

  /** The non-empty stripped pieces, in order: `[p.strip() for p in pieces if p.strip()]`. */
  function KeptOrigins(pieces: seq<string>): seq<string>
  {
    if pieces == [] then []
    else if PyStrip(pieces[0]) == [] then KeptOrigins(pieces[1..])
    else [PyStrip(pieces[0])] + KeptOrigins(pieces[1..])
  }

  /** `Settings.parse_cors`, the validator run on `BACKEND_CORS_ORIGINS`. */
  function ParseCors(v: string): seq<string>
  {
    if v == [] then [] else KeptOrigins(SplitOn(v, ','))
  }

  /** The entries of a list with the empty strings removed, order kept. */
  function WithoutEmpty(xs: seq<string>): (r: seq<string>)
  {
    if xs == [] then []
    else if xs[0] == [] then WithoutEmpty(xs[1..])
    else [xs[0]] + WithoutEmpty(xs[1..])
  }

  /**
   * A string input is split on every comma and each piece stripped, empty
   * pieces included: one entry per piece, in order.
   */
  lemma ParseCorsOriginsPieces(s: string)
    requires s != []
    ensures |ParseCorsOrigins(CorsText(s))| == |SplitOn(s, ',')|
    ensures forall i :: 0 <= i < |SplitOn(s, ',')| ==> ParseCorsOrigins(CorsText(s))[i] == PyStrip(SplitOn(s, ',')[i])
  {
  }

  /** The empty string, a value that is neither string nor list, and a list are handled as `parse_cors_origins` promises. */
  lemma ParseCorsOriginsNonText(items: seq<string>)
    ensures ParseCorsOrigins(CorsText("")) == []
    ensures ParseCorsOrigins(CorsOther) == []
    ensures ParseCorsOrigins(CorsList(items)) == items
  {
  }

  /** Text with no white space at all is rebuilt by joining the parsed origins with commas. */
  lemma ParseCorsOriginsRoundTrip(s: string)
    requires s != []
    requires forall i :: 0 <= i < |s| ==> !IsPyWhitespace(s[i])
    ensures Join(ParseCorsOrigins(CorsText(s)), ",") == s
  {
    var pieces := SplitOn(s, ',');
    forall i | 0 <= i < |pieces|
      ensures PyStrip(pieces[i]) == pieces[i]
    {
      NoWhitespaceIsStripped(s, pieces, i);
    }
    assert StripPieces(pieces) == pieces;
    JoinSplit(s, ',');
  }

  /** A piece of a split of text without white space is its own stripped form. */
  lemma NoWhitespaceIsStripped(s: string, pieces: seq<string>, i: int)
    requires pieces == SplitOn(s, ',')
    requires forall k :: 0 <= k < |s| ==> !IsPyWhitespace(s[k])
    requires 0 <= i < |pieces|
    ensures PyStrip(pieces[i]) == pieces[i]
  {
    SplitPiecesFromText(s, i);
    var p := pieces[i];
    if p != [] {
      assert p[0] in s && p[|p| - 1] in s;
    }
    StripUnpadded(p, IsPyWhitespace);
  }

  /** Every character of a piece of a split is a character of the text. */
  lemma {:induction false} SplitPiecesFromText(s: string, i: int)
    requires 0 <= i < |SplitOn(s, ',')|
    ensures forall c :: c in SplitOn(s, ',')[i] ==> c in s
    decreases |s|
  {
    if ',' in s {
      var j := IndexOf(s, ',');
      if i > 0 {
        SplitPiecesFromText(s[j + 1..], i - 1);
        forall c | c in SplitOn(s[j + 1..], ',')[i - 1]
          ensures c in s
        {
          var k :| 0 <= k < |s[j + 1..]| && s[j + 1..][k] == c;
          assert s[j + 1 + k] == c;
        }
      } else {
        forall c | c in s[..j]
          ensures c in s
        {
          var k :| 0 <= k < j && s[..j][k] == c;
          assert s[k] == c;
        }
      }
    }
  }

  /**
   * `Settings.parse_cors` keeps exactly the entries of `parse_cors_origins`
   * that are not empty, in the same order.
   */
  lemma ParseCorsIsFilteredOrigins(v: string)
    ensures ParseCors(v) == WithoutEmpty(ParseCorsOrigins(CorsText(v)))
  {
    if v != [] {
      KeptIsFilteredStripped(SplitOn(v, ','));
    }
  }

  lemma {:induction false} KeptIsFilteredStripped(pieces: seq<string>)
    ensures KeptOrigins(pieces) == WithoutEmpty(StripPieces(pieces))
  {
    if pieces != [] {
      KeptIsFilteredStripped(pieces[1..]);
      assert StripPieces(pieces) == [PyStrip(pieces[0])] + StripPieces(pieces[1..]);
    }
  }

  /** No parsed origin is empty or carries surrounding white space. */
  lemma {:induction false} ParseCorsClean(pieces: seq<string>)
    ensures forall i :: 0 <= i < |KeptOrigins(pieces)| ==>
      KeptOrigins(pieces)[i] != [] && PyStrip(KeptOrigins(pieces)[i]) == KeptOrigins(pieces)[i]
  {
    if pieces != [] {
      ParseCorsClean(pieces[1..]);
      StripIdempotent(pieces[0], IsPyWhitespace);
    }
  }

  /** Every piece with visible text is kept. */
  lemma {:induction false} ParseCorsComplete(pieces: seq<string>, i: int)
    requires 0 <= i < |pieces| && PyStrip(pieces[i]) != []
    ensures PyStrip(pieces[i]) in KeptOrigins(pieces)
  {
    if i > 0 {
      ParseCorsComplete(pieces[1..], i - 1);
      assert pieces[1..][i - 1] == pieces[i];
    }
  }

  /**
   * The string settings `Settings` declares, by attribute name. None of the
   * translation service's three settings is among them, nor the container
   * name, link lifetime and account key the blob storage service reads.
   */
  const DeclaredSettings: set<string> := {
    "APP_NAME", "APP_VERSION", "API_V1_PREFIX",
    "DATABASE_URL", "POSTGRES_USER", "POSTGRES_PASSWORD", "POSTGRES_DB", "POSTGRES_HOST",
    "SECRET_KEY", "ALGORITHM", "BACKEND_CORS_ORIGINS",
    "APPLICATIONINSIGHTS_CONNECTION_STRING", "GROQ_API_KEY", "GROQ_MODEL",
    "AZURE_STORAGE_CONNECTION_STRING", "AZURE_STORAGE_ACCOUNT_NAME",
    "AZURE_STORAGE_PDF_CONTAINER_NAME", "AZURE_STORAGE_PFP_CONTAINER_NAME"
  }

  /** The AttributeError for a setting the object lacks. */
  function MissingAttribute(name: string): Exception
  {
    OtherError("'Settings' object has no attribute '" + name + "'")
  }

  /** Reading `settings.<name>` from an object with the given string attributes. */
  function ReadSetting(attributes: map<string, string>, name: string): (r: Result<string, Exception>)
    ensures r.Ok? <==> name in attributes
    ensures r.Ok? ==> r.value == attributes[name]
  {
    if name in attributes then Ok(attributes[name]) else Err(MissingAttribute(name))
  }
}
