/**
 * What the command sends to the Fester service and how it words a failed
 * upload: the two endpoint URLs, the identifying header, the form fields of
 * an upload, and the cause extracted from an HTML error page.
 */
module Requests {
  import opened Common
  import opened Text

  type Headers = seq<(string, string)>

  const STATUS_PATH := "/fester/status"
  const COLLECTIONS_PATH := "/collections"
  const CLIENT_NAME := "Festerize"

  /** The liveness probe endpoint: the server text, unchanged, followed by "/fester/status". */
  function StatusUrl(server: string): (url: string)
    ensures |url| == |server| + 14 && url[..|server|] == server && url[|server|..] == STATUS_PATH
  {
    server + STATUS_PATH
  }

  /** The upload endpoint: the server text, unchanged, followed by "/collections". */
  function CollectionsUrl(server: string): (url: string)
    ensures |url| == |server| + 12 && url[..|server|] == server && url[|server|..] == COLLECTIONS_PATH
  {
    server + COLLECTIONS_PATH
  }

  /** The `User-Agent` value: "Festerize/" followed by the installed client version. */
  function UserAgent(clientVersion: string): (agent: string)
    ensures |agent| == 10 + |clientVersion|
    ensures agent[..10] == CLIENT_NAME + "/" && agent[10..] == clientVersion
  {
    CLIENT_NAME + "/" + clientVersion
  }

  /** The headers of both the probe and every upload. */
  function RequestHeaders(clientVersion: string): Headers {
    [("User-Agent", UserAgent(clientVersion))]
  }

  /** The IIIF Presentation API version; the command line admits only "2" and "3". */
  datatype ApiVersion = V2 | V3

  /** The `iiif-version` form value, "v" followed by the selected version. */
  function VersionField(v: ApiVersion): (field: string)
    ensures field == "v2" || field == "v3"
    ensures field == "v2" <==> v == V2
  {
    "v" + (match v case V2 => "2" case V3 => "3")
  }

  /** A form value: text, or the Python boolean `True` sent for a set flag. */
  datatype FormValue = Text(text: string) | Flag(flag: bool)

  type Field = (string, FormValue)

  /** The key of a form field. */
  function Key(f: Field): string {
    f.0
  }

  /** The form fields of an upload, built as the command appends them. */
  function Payload(v: ApiVersion, iiifHost: Option<string>, metadataUpdate: bool): seq<Field> {
    var version := [("iiif-version", Text(VersionField(v)))];
    var withHost := if iiifHost.Some? then version + [("iiif-host", Text(iiifHost.value))] else version;
    if metadataUpdate then withHost + [("metadata-update", Flag(true))] else withHost
  }

  /**
   * The form fields of an upload, in order: always the API version first, then
   * the image host exactly when one is given, then the metadata-only flag
   * exactly when it is set; no key occurs twice.
   */
  lemma PayloadFields(v: ApiVersion, iiifHost: Option<string>, metadataUpdate: bool)
    ensures var fields := Payload(v, iiifHost, metadataUpdate);
      && |fields| == 1 + (if iiifHost.Some? then 1 else 0) + (if metadataUpdate then 1 else 0)
      && fields[0] == ("iiif-version", Text(VersionField(v)))
      && ((exists i :: 0 <= i < |fields| && Key(fields[i]) == "iiif-host") <==> iiifHost.Some?)
      && (iiifHost.Some? ==> fields[1] == ("iiif-host", Text(iiifHost.value)))
      && ((exists i :: 0 <= i < |fields| && Key(fields[i]) == "metadata-update") <==> metadataUpdate)
      && (metadataUpdate ==> fields[|fields| - 1] == ("metadata-update", Flag(true)))
      && (forall i, j :: 0 <= i < j < |fields| ==> Key(fields[i]) != Key(fields[j]))
  {
    var fields := Payload(v, iiifHost, metadataUpdate);
    if iiifHost.Some? {
      assert Key(fields[1]) == "iiif-host";
    }
    if metadataUpdate {
      assert Key(fields[|fields| - 1]) == "metadata-update";
    }
  }

  /** The `<title>` of a parsed page: absent, or present with its `.string` (`None` when it has no single text). */
  datatype TitleTag = NoTitle | TitleTag(text: Option<string>)

  /**
   * An HTML error body as the parser sees it: the text of the element with
   * id "error-message" (the service's own error page), if there is one, and
   * the `<title>` (the reverse proxy's error page).
   */
  datatype ErrorPage = ErrorPage(errorMessage: Option<string>, title: TitleTag)

  /** The extraction succeeds; otherwise the fallback reads `.string` of a missing title and raises. */
  predicate HasCause(page: ErrorPage) {
    page.errorMessage.Some? || page.title.TitleTag?
  }

  /** Python's `str` of the title's `.string`: its text, or "None". */
  function TitleString(title: TitleTag): string
    requires title.TitleTag?
  {
    match title.text
    case Some(t) => t
    case None => "None"
  }

  const NGINX_MARKER := " - nginx"

  /**
   * The cause of a failed upload: the error-message element's text when the
   * page has one; only otherwise the title followed by " - nginx".
   */
  function ErrorCause(page: ErrorPage): (cause: string)
    requires HasCause(page)
    ensures page.errorMessage.Some? ==> cause == page.errorMessage.value
    ensures page.errorMessage.None? ==>
      |cause| >= 8 && cause[..|cause| - 8] == TitleString(page.title) && cause[|cause| - 8..] == NGINX_MARKER
  {
    match page.errorMessage
    case Some(text) => text
    case None => TitleString(page.title) + NGINX_MARKER
  }

  const FAILURE_PREFIX := "Failed to upload "

  /** "Failed to upload <name>: <cause> (HTTP <status>)". */
  function FailureMessage(name: string, cause: string, status: nat): string {
    FAILURE_PREFIX + name + ": " + cause + " (HTTP " + Decimal(status) + ")"
  }

  /**
   * A failure message can be taken apart again: after the fixed prefix and the
   * file name comes the cause, verbatim, and the three characters before the
   * closing parenthesis read back as the HTTP status.
   */
  lemma {:induction false} FailureMessageParts(name: string, cause: string, status: nat)
    requires 100 <= status <= 999
    ensures var m := FailureMessage(name, cause, status);
      var head := FAILURE_PREFIX + name + ": ";
      && |m| == |head| + |cause| + 11
      && m[..|head|] == head
      && m[|head|..|m| - 11] == cause
      && m[|m| - 11..|m| - 4] == " (HTTP "
      && AllDigits(m[|m| - 4..|m| - 1])
      && ParseDecimal(m[|m| - 4..|m| - 1]) == status
      && m[|m| - 1] == ')'
  {
    var digits := Decimal(status);
    ThreeDigits(status);
    DecimalRoundTrip(status);
    var head := FAILURE_PREFIX + name + ": ";
    var m := FailureMessage(name, cause, status);
    assert m == head + cause + " (HTTP " + digits + ")";
    assert m[|m| - 4..|m| - 1] == digits;
  }
}
