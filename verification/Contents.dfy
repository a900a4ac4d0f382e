/** The text and the attributes of an entry: what the service checks about them, and the digests it answers with. */
module Contents {
  import opened Records
  import opened AttributeDigest
  import opened AttributeSizes
  import opened Tables
  import opened Plane

  /** An entry as it comes with a request. */
  datatype RawEntry = RawEntry(
    body: string,
    attributes: RawAttributes,
    systemAttributes: RawAttributes,
    delaySeconds: Option<int>,
    groupId: string,
    dedupId: string,
    messageId: string,
    sequenceNumber: string
  )

  /** The digest of accepted attributes; there is none without attributes. */
  ghost function Md5Of(cfg: Config, accepted: Normalized): string {
    match SortedFields(accepted.attrs, cfg.checks.decode)
    case Some(fields) => if accepted.attrs == map[] then "" else cfg.md5Hex(FieldsBytes(fields))
    case None => ""
  }

  /** What the checks of text and attributes come to: the first error, or size and digests. */
  ghost function ContentOf(cfg: Config, raw: RawEntry): Result<Content> {
    if !cfg.checks.validText(raw.body) then Err(InvalidMessageContents)
    else
      match NormalizedOf(raw.attributes, false, cfg.checks)
      case Err(e) => Err(e)
      case Ok(attributes) =>
        match NormalizedOf(raw.systemAttributes, true, cfg.checks)
        case Err(e) => Err(e)
        case Ok(system) => Ok(Content(attributes.size, Md5Of(cfg, attributes), Md5Of(cfg, system)))
  }

  ghost function EntryOf(cfg: Config, raw: RawEntry): Entry {
    Entry(raw.body, ContentOf(cfg, raw), raw.delaySeconds, raw.groupId, raw.dedupId, raw.messageId, raw.sequenceNumber)
  }

  /** The digest in the response. By `AcceptedDecode` it cannot fail. */
  method Md5OfAccepted(cfg: Config, ghost raw: RawAttributes, ghost system: bool, accepted: Normalized) returns (md5: string)
    requires NormalizedOf(raw, system, cfg.checks) == Ok(accepted)
    ensures md5 == Md5Of(cfg, accepted)
  {
    AcceptedDecode(raw, system, cfg.checks);
    if accepted.attrs == map[] {
      return "";
    }
    var input := DigestInput(accepted.attrs, cfg.checks.decode);
    md5 := cfg.md5Hex(input.value);
  }

  /** The checks of text and attributes in `sendMessageEntry`, and the digests. */
  method ReadContent(cfg: Config, raw: RawEntry) returns (content: Result<Content>)
    ensures content == ContentOf(cfg, raw)
  {
    if !cfg.checks.validText(raw.body) {
      return Err(InvalidMessageContents);
    }
    var attributes := NormalizeAttributes(raw.attributes, false, cfg.checks);
    if attributes.Err? {
      return Err(attributes.error);
    }
    var system := NormalizeAttributes(raw.systemAttributes, true, cfg.checks);
    if system.Err? {
      return Err(system.error);
    }
    var md5 := Md5OfAccepted(cfg, raw.attributes, false, attributes.value);
    var systemMd5 := Md5OfAccepted(cfg, raw.systemAttributes, true, system.value);
    content := Ok(Content(attributes.value.size, md5, systemMd5));
  }
}
