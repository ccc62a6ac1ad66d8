/** How the search route turns a thrown value into an HTTP status
    (route.ts, lines 134-169), and how it rewraps a failure of the web
    search before that (route.ts, lines 102-109). */
module Errors {
  import opened Strings

  /** A value thrown in JavaScript: an `Error` instance, which carries a
      message, or any other value. */
  datatype Thrown = ErrorObject(message: string) | OtherValue

  /** The message shows a credential or authorization problem. */
  ghost predicate NamesCredentials(m: string) {
    OccursIn("Unauthorized", m) || OccursIn("API key", m)
  }

  /** The message shows throttling or an exhausted quota. */
  ghost predicate NamesThrottling(m: string) {
    OccursIn("rate limit", m) || OccursIn("quota", m)
  }

  /** The status the route answers with for a caught value: the credential
      test is made first, then the throttling test, and everything else,
      including every value that is not an `Error`, is a server error. */
  function Status(e: Thrown): (status: int)
    ensures status == 401 || status == 429 || status == 500
    ensures status == 401 <==> e.ErrorObject? && NamesCredentials(e.message)
    ensures status == 429 <==>
      e.ErrorObject? && !NamesCredentials(e.message) && NamesThrottling(e.message)
  {
    match e
    case OtherValue => 500
    case ErrorObject(m) =>
      IncludesIffOccurs(m, "Unauthorized");
      IncludesIffOccurs(m, "API key");
      IncludesIffOccurs(m, "rate limit");
      IncludesIffOccurs(m, "quota");
      if Includes(m, "Unauthorized") || Includes(m, "API key") then 401
      else if Includes(m, "rate limit") || Includes(m, "quota") then 429
      else 500
  }

  /** The fixed body text sent with each error status. */
  function ErrorText(status: int): string {
    if status == 401 then "API key configuration error. Please check your environment variables."
    else if status == 429 then "API rate limit exceeded. Please try again later."
    else "Failed to process request. Please try again."
  }

  /** One of the four strings the classification looks for. */
  predicate IsMarker(t: string) {
    t == "Unauthorized" || t == "API key" || t == "rate limit" || t == "quota"
  }

  const TavilyPrefix: string := "Tavily API Error: "

  /** The error the route throws in place of a failed web search. */
  function WrapTavily(e: Thrown): Thrown {
    ErrorObject(TavilyPrefix + (if e.ErrorObject? then e.message else "Unknown error"))
  }

  /** A slice that differs from `t` at its k-th character does not start
      with `t`. */
  lemma CharDiffers(s: string, t: string, i: nat, k: nat)
    requires i + k < |s| && k < |t| && s[i + k] != t[k]
    ensures !StartsWith(s[i..], t)
  {
    assert s[i..][k] == s[i + k];
  }

  /** No marker can begin inside the prefix, whatever follows it. */
  lemma NoMarkerInPrefix(m: string, t: string, i: nat)
    requires IsMarker(t) && i < |TavilyPrefix|
    ensures !StartsWith((TavilyPrefix + m)[i..], t)
  {
    var s := TavilyPrefix + m;
    assert s[i] == TavilyPrefix[i];
    if t == "Unauthorized" {
      NoCharInPrefix(i, 'U');
      CharDiffers(s, t, i, 0);
    } else if t == "quota" {
      NoCharInPrefix(i, 'q');
      CharDiffers(s, t, i, 0);
    } else if t == "rate limit" {
      NoRateInPrefix(m, i);
    } else {
      NoApiKeyInPrefix(m, i);
    }
  }

  /** The prefix holds neither 'U' nor 'q'. */
  lemma NoCharInPrefix(i: nat, c: char)
    requires i < |TavilyPrefix| && (c == 'U' || c == 'q')
    ensures TavilyPrefix[i] != c
  {
  }

  /** Every 'r' of the prefix is followed by a character other than 'a'. */
  lemma NoRateInPrefix(m: string, i: nat)
    requires i < |TavilyPrefix|
    ensures !StartsWith((TavilyPrefix + m)[i..], "rate limit")
  {
    var s := TavilyPrefix + m;
    assert s[i] == TavilyPrefix[i];
    if i == 12 || i == 13 || i == 15 {
      assert s[i + 1] == TavilyPrefix[i + 1] != 'a';
      CharDiffers(s, "rate limit", i, 1);
    } else {
      assert TavilyPrefix[i] != 'r';
      CharDiffers(s, "rate limit", i, 0);
    }
  }

  /** The only 'A' of the prefix begins "API E", not "API k". */
  lemma NoApiKeyInPrefix(m: string, i: nat)
    requires i < |TavilyPrefix|
    ensures !StartsWith((TavilyPrefix + m)[i..], "API key")
  {
    var s := TavilyPrefix + m;
    assert s[i] == TavilyPrefix[i];
    if i == 7 {
      assert s[11] == TavilyPrefix[11] == 'E';
      CharDiffers(s, "API key", i, 4);
    } else {
      assert TavilyPrefix[i] != 'A';
      CharDiffers(s, "API key", i, 0);
    }
  }

  /** Prefixing a message with the Tavily tag does not change which markers
      it contains. */
  lemma PrefixKeepsMarkers(m: string, t: string)
    requires IsMarker(t)
    ensures Includes(TavilyPrefix + m, t) == Includes(m, t)
  {
    forall i | 0 <= i < |TavilyPrefix| ensures !StartsWith((TavilyPrefix + m)[i..], t) {
      NoMarkerInPrefix(m, t, i);
    }
    IncludesPastPrefix(TavilyPrefix, m, t);
  }

  /** The message lacks a character of each marker: 'U', 'A', 'l', 'q'. */
  predicate LacksMarkerChars(m: string) {
    'U' !in m && 'A' !in m && 'l' !in m && 'q' !in m
  }

  lemma LacksMarkerCharsConcat(a: string, b: string)
    requires LacksMarkerChars(a) && LacksMarkerChars(b)
    ensures LacksMarkerChars(a + b)
  {
    NotInConcat(a, b, 'U');
    NotInConcat(a, b, 'A');
    NotInConcat(a, b, 'l');
    NotInConcat(a, b, 'q');
  }

  /** A message lacking a character of each marker is a server error. */
  lemma MarkerFree(m: string)
    requires LacksMarkerChars(m)
    ensures Status(ErrorObject(m)) == 500
  {
    MissingCharExcludes(m, "Unauthorized", 'U');
    MissingCharExcludes(m, "API key", 'A');
    MissingCharExcludes(m, "rate limit", 'l');
    MissingCharExcludes(m, "quota", 'q');
    IncludesIffOccurs(m, "Unauthorized");
    IncludesIffOccurs(m, "API key");
    IncludesIffOccurs(m, "rate limit");
    IncludesIffOccurs(m, "quota");
  }

  /** A message lacking the characters 'a', 'A' and 'q' contains no marker. */
  lemma LowerAFree(m: string)
    requires 'a' !in m && 'A' !in m && 'q' !in m
    ensures Status(ErrorObject(m)) == 500
  {
    MissingCharExcludes(m, "Unauthorized", 'a');
    MissingCharExcludes(m, "API key", 'A');
    MissingCharExcludes(m, "rate limit", 'a');
    MissingCharExcludes(m, "quota", 'q');
  }

  /** Rewrapping the `Error` of a failed search keeps the classification of
      its message. */
  lemma WrapErrorKeepsStatus(m: string)
    ensures Status(WrapTavily(ErrorObject(m))) == Status(ErrorObject(m))
  {
    PrefixKeepsMarkers(m, "Unauthorized");
    PrefixKeepsMarkers(m, "API key");
    PrefixKeepsMarkers(m, "rate limit");
    PrefixKeepsMarkers(m, "quota");
  }

  /** Rewrapping a search failure never changes the status it is answered
      with: an `Error` keeps its message's classification, and any other
      thrown value becomes "Unknown error", which is a server error just as
      the original value was. */
  lemma WrapKeepsStatus(e: Thrown)
    ensures Status(WrapTavily(e)) == Status(e)
  {
    match e
    case ErrorObject(m) =>
      WrapErrorKeepsStatus(m);
    case OtherValue =>
      UnknownSearchErrorIs500();
  }

  /** A non-`Error` search failure is always answered as a server error. */
  lemma UnknownSearchErrorIs500()
    ensures Status(WrapTavily(OtherValue)) == 500
  {
    var u := "Unknown error";
    assert WrapTavily(OtherValue) == WrapTavily(ErrorObject(u));
    LowerAFree(u);
    WrapErrorKeepsStatus(u);
  }
}
