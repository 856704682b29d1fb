/**
 * Content negotiation: a JSONP callback implies the jsonp format, and a
 * cross-origin request whose content type is plain text or missing (as
 * XDomainRequest sends it) is parsed as JSON.
 */
module ContentNegotiation {
  import opened JsonValues

  const JsonType := "application/json"

  /** _JSONPCallbackNegotiation.select_renderer: the format suffix handed on. */
  function RendererFormat(query: map<string, string>, formatSuffix: Option<string>): (r: Option<string>)
    ensures "callback" in query ==> r == Some("jsonp")
    ensures "callback" !in query ==> r == formatSuffix
  {
    if "callback" in query then Some("jsonp") else formatSuffix
  }

  /** A cross-origin request with a text/plain or empty (or absent) content type. */
  predicate LooksLikeXDomainRequest(meta: map<string, string>)
  {
    "HTTP_ORIGIN" in meta && (if "CONTENT_TYPE" in meta then meta["CONTENT_TYPE"] else "") in {"text/plain", ""}
  }

  /** The request state select_parser may correct. */
  class ParsedRequest {
    var meta: map<string, string>
    var contentType: string     // request._content_type

    constructor (meta: map<string, string>, contentType: string)
      ensures this.meta == meta && this.contentType == contentType
    {
      this.meta := meta;
      this.contentType := contentType;
    }

    /** _XDomainRequestCompatNegotiation.select_parser, up to the parser choice. */
    method CorrectContentType()
      modifies this
      ensures meta == CorrectedMeta(old(meta))
      ensures LooksLikeXDomainRequest(old(meta)) ==>
        meta == old(meta)["CONTENT_TYPE" := JsonType] && contentType == JsonType
      ensures !LooksLikeXDomainRequest(old(meta)) ==> meta == old(meta) && contentType == old(contentType)
    {
      var current := if "CONTENT_TYPE" in meta then meta["CONTENT_TYPE"] else "";
      if "HTTP_ORIGIN" in meta && (current == "text/plain" || current == "") {
        meta := meta["CONTENT_TYPE" := JsonType];
        contentType := JsonType;
      }
    }
  }

  /** The META the correction leaves. */
  function CorrectedMeta(meta: map<string, string>): (m: map<string, string>)
    ensures LooksLikeXDomainRequest(meta) ==> m == meta["CONTENT_TYPE" := JsonType]
    ensures !LooksLikeXDomainRequest(meta) ==> m == meta
  {
    if LooksLikeXDomainRequest(meta) then meta["CONTENT_TYPE" := JsonType] else meta
  }

  /**
   * After the correction a cross-origin request no longer looks like an
   * XDomainRequest, so correcting again changes nothing; only the content
   * type is ever touched.
   */
  lemma CorrectionIsStable(meta: map<string, string>)
    ensures !LooksLikeXDomainRequest(CorrectedMeta(meta))
    ensures CorrectedMeta(CorrectedMeta(meta)) == CorrectedMeta(meta)
    ensures forall k :: k in meta && k != "CONTENT_TYPE" ==> k in CorrectedMeta(meta) && CorrectedMeta(meta)[k] == meta[k]
  {
    if LooksLikeXDomainRequest(meta) {
      assert CorrectedMeta(meta)["CONTENT_TYPE"] == JsonType;
      assert JsonType !in {"text/plain", ""};
    }
  }

  /** Without an Origin header, or with another content type, nothing changes. */
  lemma OtherRequestsUntouched(meta: map<string, string>)
    requires "HTTP_ORIGIN" !in meta || ("CONTENT_TYPE" in meta && meta["CONTENT_TYPE"] !in {"text/plain", ""})
    ensures CorrectedMeta(meta) == meta
  {
  }
}
