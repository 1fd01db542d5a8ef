/** The messages the chat client keeps in its history and sends to the
    chat-completions service: a system prompt, user turns made of text and
    image parts, and assistant replies. Images travel as JPEG data URIs. */
module Messages {

  /** The per-image quality hint chosen in the settings tab. */
  datatype Detail = Low | High

  /** One element of a user message's content list: a `text` entry or an
      `image_url` entry carrying the data URI and the detail level. */
  datatype Part =
    | TextPart(text: string)
    | ImagePart(url: string, detail: Detail)

  datatype Message =
    | System(content: string)
    | User(parts: seq<Part>)
    | Assistant(content: string)

  /** Every upload is labelled as JPEG, whatever its real format. */
  const JpegPrefix: string := "data:image/jpeg;base64,"

  /** The fixed offset the transcript slices off a stored image URL. */
  const PrefixLength: nat := 23

  /** Python's `s[k:]`: the characters from position k on, or nothing when
      the string is shorter than k. */
  function SliceFrom(s: string, k: nat): (r: string)
    ensures |r| == if k <= |s| then |s| - k else 0
    ensures forall i :: 0 <= i < |r| ==> r[i] == s[k + i]
  {
    if k <= |s| then s[k..] else ""
  }

  predicate IsJpegDataUri(url: string)
  {
    |JpegPrefix| <= |url| && url[..|JpegPrefix|] == JpegPrefix
  }

  /** The URL stored for an upload whose base64 text is `encoded`. The
      display slice recovers `encoded` exactly, because the prefix is
      exactly as long as the offset it slices at. */
  function DataUri(encoded: string): (url: string)
    ensures |url| == PrefixLength + |encoded|
    ensures IsJpegDataUri(url)
    ensures EncodedPayload(url) == encoded
  {
    JpegPrefix + encoded
  }

  /** What the transcript hands to the base64 decoder for a stored image. */
  function EncodedPayload(url: string): string
  {
    SliceFrom(url, PrefixLength)
  }

  /** The slice-then-rewrap round trip gives back the stored URL exactly
      when that URL carries the JPEG prefix. */
  lemma DataUriOfEncodedPayload(url: string)
    ensures DataUri(EncodedPayload(url)) == url <==> IsJpegDataUri(url)
  {
    if IsJpegDataUri(url) {
      assert |JpegPrefix| == PrefixLength;
      assert url == url[..PrefixLength] + url[PrefixLength..];
    }
  }

  /** A text part must be the first part and non-empty; an image part
      must carry a JPEG data URI. */
  predicate WellFormedPart(p: Part, index: nat)
  {
    match p
    case TextPart(t) => index == 0 && t != ""
    case ImagePart(url, _) => IsJpegDataUri(url)
  }

  predicate WellFormedUser(parts: seq<Part>)
  {
    |parts| >= 1 && forall j :: 0 <= j < |parts| ==> WellFormedPart(parts[j], j)
  }

  /** The shape of the history the session keeps: the system message at
      index 0 and nowhere else, well-formed user turns, and every
      assistant reply directly after the user turn it answers. A user turn
      need not be answered: a failed call leaves it dangling. */
  predicate WellFormedHistory(h: seq<Message>)
  {
    && |h| >= 1
    && h[0].System?
    && (forall i :: 1 <= i < |h| ==> !h[i].System?)
    && (forall i :: 1 <= i < |h| && h[i].User? ==> WellFormedUser(h[i].parts))
    && (forall i :: 1 <= i < |h| && h[i].Assistant? ==> h[i - 1].User?)
  }

  /** Appending a well-formed user turn keeps the history well-formed. */
  lemma AppendUserWellFormed(h: seq<Message>, parts: seq<Part>)
    requires WellFormedHistory(h)
    ensures WellFormedHistory(h + [User(parts)]) <==> WellFormedUser(parts)
  {
    var h' := h + [User(parts)];
    assert h'[|h|] == User(parts);
    if WellFormedUser(parts) {
      forall i | 1 <= i < |h'| && h'[i].Assistant?
        ensures h'[i - 1].User?
      {
        assert h'[i] == h[i] && h'[i - 1] == h[i - 1];
      }
    }
  }

  /** A reply may be appended exactly when the history ends in a user turn. */
  lemma AppendAssistantWellFormed(h: seq<Message>, reply: string)
    requires WellFormedHistory(h)
    ensures WellFormedHistory(h + [Assistant(reply)]) <==> h[|h| - 1].User?
  {
    var h' := h + [Assistant(reply)];
    assert h'[|h|] == Assistant(reply) && h'[|h| - 1] == h[|h| - 1];
  }
}
