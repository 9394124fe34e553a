/** Conversation messages: a text message or a base64-carrying binary one. */
module Message {
  import opened Wrappers
  import Base64

  /** The role constants. Message roles are free strings: nothing checks a
      role against these three values. */
  const UserRole: string := "user"
  const ModelRole: string := "model"
  const SystemRole: string := "system"

  /** A message. A binary message's `content` is the base64 text of its
      payload; its role defaults to the user role and its caption to none. */
  datatype Msg =
    | Text(role: string, content: string)
    | Binary(content: string, mimeType: string, role: string := UserRole, caption: Option<string> := None)

  /** Builds a binary message from raw bytes by base64-encoding them; the
      MIME type, role and caption are carried over unchanged. The content is
      the one string that decodes to the bytes. */
  function FromBytes(data: seq<Base64.byte>, mimeType: string, role: string := UserRole, caption: Option<string> := None): (m: Msg)
    ensures m.Binary? && m.mimeType == mimeType && m.role == role && m.caption == caption
    ensures |m.content| == 4 * ((|data| + 2) / 3)
    ensures Base64.Decode(m.content) == Some(data)
    ensures forall s :: Base64.Decode(s) == Some(data) ==> s == m.content
  {
    Base64.RoundTrip(data);
    assert forall s :: Base64.Decode(s) == Some(data) ==> s == Base64.Encode(data) by {
      forall s | Base64.Decode(s) == Some(data) {
        Base64.EncodeOfDecode(s, data);
      }
    }
    Binary(Base64.Encode(data), mimeType, role, caption)
  }

  /** With the defaults left in place, a message built from bytes comes from
      the user and has no caption. */
  lemma FromBytesDefaults(data: seq<Base64.byte>, mimeType: string)
    ensures FromBytes(data, mimeType).role == UserRole
    ensures FromBytes(data, mimeType).caption == None
  {
  }
}
