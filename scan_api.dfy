/** The page's side of the scans endpoint: the URL it requests, the outcome the
    awaited `api(...)` call produces, and the message recorded on failure. */
module ScanApi {
  import opened Js

  const ScansPath: string := "/api/scans"
  const CursorQuery: string := "?cursor="
  const FallbackMessage: string := "Failed to fetch scans"

  /** What the awaited `api<{ items, next }>(url)` call yields: the response
      body, or the value it threw. */
  datatype ApiOutcome<R> = Success(items: seq<R>, next: Option<string>) | Failure(thrown: Thrown)

  /** The cursor a load actually sends: the argument when truthy, else none. */
  function SentCursor(c: Option<string>): Option<string> {
    if Truthy(c) then c else None
  }

  /** The request URL for a load with cursor argument `c`; the cursor is
      appended verbatim, without percent-encoding. */
  function RequestUrl(c: Option<string>): (url: string)
    ensures |ScansPath| <= |url| && url[..|ScansPath|] == ScansPath
    ensures Truthy(c) <==> url != ScansPath
    ensures Truthy(c) ==> |url| == |ScansPath + CursorQuery| + |c.value|
  {
    if Truthy(c) then ScansPath + CursorQuery + c.value else ScansPath
  }

  /** Reads the cursor back out of a request URL: the partner of RequestUrl. */
  function CursorOfUrl(url: string): Option<string> {
    var prefix := ScansPath + CursorQuery;
    if |prefix| < |url| && url[..|prefix|] == prefix then Some(url[|prefix|..]) else None
  }

  /** The URL carries exactly the cursor that was sent: nothing is lost and
      nothing is added. */
  lemma UrlRoundTrip(c: Option<string>)
    ensures CursorOfUrl(RequestUrl(c)) == SentCursor(c)
  {
    var prefix := ScansPath + CursorQuery;
    if Truthy(c) {
      var url := prefix + c.value;
      assert url[..|prefix|] == prefix;
      assert url[|prefix|..] == c.value;
    }
  }

  /** Two loads request the same URL exactly when they send the same cursor. */
  lemma RequestUrlInjective(c1: Option<string>, c2: Option<string>)
    ensures RequestUrl(c1) == RequestUrl(c2) <==> SentCursor(c1) == SentCursor(c2)
  {
    if RequestUrl(c1) == RequestUrl(c2) {
      UrlRoundTrip(c1);
      UrlRoundTrip(c2);
    }
  }

  /** The message stored in `error` when a load fails. */
  function ErrorMessage(t: Thrown): (m: string)
    ensures t.ErrorInstance? ==> m == t.message
    ensures t.OtherValue? ==> m == FallbackMessage
    ensures m == "" <==> t == ErrorInstance("")
  {
    match t
    case ErrorInstance(message) => message
    case OtherValue => FallbackMessage
  }
}
