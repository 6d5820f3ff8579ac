/** The payload `encode` builds, seen as the JSON object it is: a mapping from
    field names to string values. Text layout (indentation, escaping) belongs to
    the JSON library and is not modelled. */
module Encoding {
  import opened Wrappers
  import opened Notifications

  /** The keys every payload carries. */
  const RequiredKeys: set<string> := {"source", "title", "message", "level"}

  /** Every key a payload can carry. */
  const AllKeys: set<string> := RequiredKeys + {"tag"}

  /** What a receiver can learn from a payload: the notification minus the
      addressing fields `host` and `port`. */
  datatype Fields = Fields(
    source: string,
    title: string,
    message: string,
    level: string,
    tag: Option<string>)

  /** The part of a notification that is meant to travel. */
  function View(n: Notification): Fields
    requires n.message.Some?
  {
    Fields(n.source, n.title, n.message.value, n.level, n.tag)
  }

  /** Builds the object: the four fixed fields, and `tag` when the tag pointer is
      non-NULL. Only called once the message is known to be present. */
  function Encode(n: Notification): (doc: map<string, string>)
    requires n.message.Some?
    ensures doc.Keys == if n.tag.Some? then AllKeys else RequiredKeys
    ensures "host" !in doc && "port" !in doc
    ensures doc["source"] == n.source && doc["title"] == n.title
    ensures doc["message"] == n.message.value && doc["level"] == n.level
    ensures "tag" in doc ==> doc["tag"] == n.tag.value
  {
    var base := map["source" := n.source, "title" := n.title,
                    "message" := n.message.value, "level" := n.level];
    if n.tag.Some? then base["tag" := n.tag.value] else base
  }

  /** A receiver's reading of a payload: the four fixed fields must be there,
      `tag` is optional, anything else is ignored. */
  function Decode(doc: map<string, string>): (r: Option<Fields>)
    ensures r.Some? <==> RequiredKeys <= doc.Keys
    ensures r.Some? ==> (r.value.tag.Some? <==> "tag" in doc)
  {
    if "source" in doc && "title" in doc && "message" in doc && "level" in doc then
      Some(Fields(doc["source"], doc["title"], doc["message"], doc["level"],
                  if "tag" in doc then Some(doc["tag"]) else None))
    else None
  }

  /** Decoding an encoded notification gives back every field that was sent,
      including an empty tag and an absent one. */
  lemma DecodeEncode(n: Notification)
    requires n.message.Some?
    ensures Decode(Encode(n)) == Some(View(n))
  {
  }

  /** The converse: a payload with no foreign keys is exactly the encoding of the
      fields it decodes to, whatever host and port the sender had. */
  lemma EncodeDecode(doc: map<string, string>, host: Option<string>, port: int)
    requires doc.Keys <= AllKeys
    requires Decode(doc).Some?
    ensures var f := Decode(doc).value;
            Encode(Notification(host, port, f.source, f.level, f.title, Some(f.message), f.tag)) == doc
  {
    var f := Decode(doc).value;
    var e := Encode(Notification(host, port, f.source, f.level, f.title, Some(f.message), f.tag));
    assert e.Keys == doc.Keys;
  }

  /** Two notifications produce the same payload exactly when they agree on the
      travelling fields; host and port never influence it. */
  lemma EncodeIgnoresAddress(a: Notification, b: Notification)
    requires a.message.Some? && b.message.Some?
    ensures Encode(a) == Encode(b) <==> View(a) == View(b)
  {
    if Encode(a) == Encode(b) {
      DecodeEncode(a);
      DecodeEncode(b);
    }
  }
}
