/**
  Content-Type inference: the two-entry table from a payload's `typeof` to a
  content type, and the step that adds `Content-Type` to a header map unless
  some key already names it, whatever its capitalisation.
 */
module ContentType {
  import opened JsValues

  /** Header name to value; `None` is a value that is JavaScript's `undefined`. */
  type HeaderMap = map<string, Option<string>>

  const ContentTypeKey := "Content-Type"
  const TextPlain := "text/plain; charset=utf-8"
  const ApplicationJson := "application/json; charset=utf-8"

  /** The lookup `dataTypeToContentType[typeName]`; a missing entry reads as `undefined`. */
  function DataTypeToContentType(typeName: string): (r: Option<string>)
    ensures typeName == "string" ==> r == Some(TextPlain)
    ensures typeName == "object" ==> r == Some(ApplicationJson)
    ensures typeName != "string" && typeName != "object" ==> r == None
  {
    if typeName == "string" then Some(TextPlain)
    else if typeName == "object" then Some(ApplicationJson)
    else None
  }

  /** ASCII lower-casing of one character. */
  function LowerChar(c: char): (l: char)
    ensures 'A' <= c <= 'Z' ==> l as int == c as int + 32
    ensures !('A' <= c <= 'Z') ==> l == c
  {
    if 'A' <= c <= 'Z' then (c as int + 32) as char else c
  }

  /** `s.toLowerCase()`, restricted to ASCII letters. */
  function ToLower(s: string): (r: string)
    ensures |r| == |s|
    ensures forall i :: 0 <= i < |s| ==> r[i] == LowerChar(s[i])
  {
    seq(|s|, i requires 0 <= i < |s| => LowerChar(s[i]))
  }

  /** `k.toLowerCase() === "content-type"`; only a twelve-character key can match. */
  predicate IsContentTypeKey(k: string)
    ensures IsContentTypeKey(k) ==> |k| == 12
  {
    ToLower(k) == "content-type"
  }

  /** `Object.keys(headers).some(k => k.toLowerCase() === "content-type")`. */
  predicate HasContentTypeKey(headers: HeaderMap)
    ensures HasContentTypeKey(headers) <==> ContentTypeKeys(headers) != {}
  {
    var some := exists k :: k in headers && IsContentTypeKey(k);
    assert some ==> ContentTypeKeys(headers) != {} by {
      if some {
        var k :| k in headers && IsContentTypeKey(k);
        assert k in ContentTypeKeys(headers);
      }
    }
    some
  }

  lemma ContentTypeKeyNamesItself()
    ensures IsContentTypeKey(ContentTypeKey)
  {
  }

  /**
    `ensureContentTypeHeader(payload, headers)`: the headers themselves when a
    content-type key is present, otherwise the headers with `Content-Type` set
    from the table entry for the payload's `typeof`.
   */
  function EnsureContentTypeHeader(payload: JsValue, headers: HeaderMap): (r: HeaderMap)
    ensures HasContentTypeKey(r)
    ensures r == headers <==> HasContentTypeKey(headers)
    ensures forall k :: k in headers ==> k in r && r[k] == headers[k]
    ensures forall k :: k in r && k !in headers ==> k == ContentTypeKey
    ensures !HasContentTypeKey(headers) ==>
      ContentTypeKey in r && r[ContentTypeKey] == DataTypeToContentType(TypeOf(payload))
  {
    ContentTypeKeyNamesItself();
    if HasContentTypeKey(headers) then headers
    else headers[ContentTypeKey := DataTypeToContentType(TypeOf(payload))]
  }

  /** The keys of a header map that name the content type. */
  function ContentTypeKeys(headers: HeaderMap): set<string> {
    set k | k in headers && IsContentTypeKey(k)
  }

  /** When no content-type key was present, exactly one is afterwards: `Content-Type`. */
  lemma AddsExactlyOneContentTypeKey(payload: JsValue, headers: HeaderMap)
    requires !HasContentTypeKey(headers)
    ensures ContentTypeKeys(EnsureContentTypeHeader(payload, headers)) == {ContentTypeKey}
    ensures |EnsureContentTypeHeader(payload, headers)| == |headers| + 1
  {
  }

  /**
    A second call, whatever its payload, changes nothing: after the first a
    content-type key exists.
   */
  lemma EnsureContentTypeHeaderIdempotent(payload: JsValue, other: JsValue, headers: HeaderMap)
    ensures EnsureContentTypeHeader(other, EnsureContentTypeHeader(payload, headers))
         == EnsureContentTypeHeader(payload, headers)
  {
  }

  /**
    The key test ignores capitalisation and nothing else: a key matches exactly
    when each of its twelve characters is that of `content-type` in lower or
    upper case.
   */
  lemma ContentTypeKeyCapitalisations(k: string)
    ensures IsContentTypeKey(k) <==>
      |k| == 12 && forall i :: 0 <= i < 12 ==> k[i] == "content-type"[i] || k[i] == "CONTENT-TYPE"[i]
  {
    if |k| == 12 && forall i :: 0 <= i < 12 ==> k[i] == "content-type"[i] || k[i] == "CONTENT-TYPE"[i] {
      forall i | 0 <= i < 12 ensures ToLower(k)[i] == "content-type"[i] {
        assert ToLower(k)[i] == LowerChar(k[i]);
      }
      assert ToLower(k) == "content-type";
    }
    if IsContentTypeKey(k) {
      forall i | 0 <= i < 12 ensures k[i] == "content-type"[i] || k[i] == "CONTENT-TYPE"[i] {
        assert LowerChar(k[i]) == "content-type"[i];
      }
    }
  }

  /** A caller-supplied `Content-type` header stays as given. */
  lemma CustomContentTypeKept(payload: JsValue, value: string)
    ensures EnsureContentTypeHeader(payload, map["Content-type" := Some(value)])
         == map["Content-type" := Some(value)]
  {
    var h := map["Content-type" := Some(value)];
    var k := "Content-type";
    ContentTypeKeyCapitalisations(k);
    assert k in h;
  }
}
