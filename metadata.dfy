/**
 * The caller's resource metadata and `updateResourceMetadata`
 * (pkg/state/protobuf/client/client.go), which copies the server-assigned
 * version, updated timestamp and owner onto it after Create and Update.
 */
module ResourceMetadata {
  import opened Wrappers
  import opened Errors
  import opened Wire

  datatype Phase = Running | TearingDown

  /** A snapshot of the metadata fields of a resource. */
  datatype MetadataValue = MetadataValue(
    namespace: string,
    typ: string,
    id: string,
    version: nat,
    updated: Timestamp,
    owner: string,
    phase: Phase,
    finalizers: seq<string>)

  /**
   * The helpers defined outside the adapter: `resource.ParseVersion`, and
   * the verdict of `Metadata.SetOwner` given the current and the requested
   * owner (an error leaves the owner as it was).
   */
  datatype MetadataHelpers = MetadataHelpers(
    parseVersion: string -> Result<nat, Cause>,
    ownerVerdict: (string, string) -> Option<Cause>)

  /** The fields that `updateResourceMetadata` never writes are equal in both snapshots. */
  predicate SameIdentityAndState(a: MetadataValue, b: MetadataValue)
  {
    a.namespace == b.namespace && a.typ == b.typ && a.id == b.id &&
    a.phase == b.phase && a.finalizers == b.finalizers
  }

  /** The metadata and the error after copying the server's metadata back. */
  datatype CopyBack = CopyBack(metadata: MetadataValue, err: Option<Cause>)

  /**
   * The effect of `updateResourceMetadata`: when the version parses, the
   * version and updated time become the server's and the owner becomes the
   * server's unless SetOwner refuses it; when it does not parse, nothing is
   * written. No other field is touched.
   */
  function CopiedBack(v: MetadataValue, source: WireMetadata, h: MetadataHelpers): (r: CopyBack)
    ensures SameIdentityAndState(v, r.metadata)
    ensures h.parseVersion(source.version).Failure? ==>
              r.metadata == v && r.err == Some(h.parseVersion(source.version).error)
    ensures h.parseVersion(source.version).Success? ==>
              && r.metadata.version == h.parseVersion(source.version).value
              && r.metadata.updated == source.updated
              && r.err == h.ownerVerdict(v.owner, source.owner)
              && r.metadata.owner == (if r.err.None? then source.owner else v.owner)
  {
    match h.parseVersion(source.version)
    case Failure(e) => CopyBack(v, Some(e))
    case Success(version) =>
      var withTime := v.(version := version, updated := source.updated);
      match h.ownerVerdict(v.owner, source.owner)
      case Some(e) => CopyBack(withTime, Some(e))
      case None => CopyBack(withTime.(owner := source.owner), None)
  }

  /** The metadata object of the caller's resource, updated in place through its setters. */
  class Metadata {
    var namespace: string
    var typ: string
    var id: string
    var version: nat
    var updated: Timestamp
    var owner: string
    var phase: Phase
    var finalizers: seq<string>

    function Value(): (v: MetadataValue)
      reads this
    {
      MetadataValue(namespace, typ, id, version, updated, owner, phase, finalizers)
    }

    method SetVersion(version': nat)
      modifies this`version
      ensures version == version'
    {
      version := version';
    }

    method SetUpdated(updated': Timestamp)
      modifies this`updated
      ensures updated == updated'
    {
      updated := updated';
    }

    /** `SetOwner`, with its verdict supplied by the helpers. */
    method SetOwner(owner': string, h: MetadataHelpers) returns (err: Option<Cause>)
      modifies this`owner
      ensures err == h.ownerVerdict(old(owner), owner')
      ensures owner == if err.None? then owner' else old(owner)
    {
      err := h.ownerVerdict(owner, owner');
      if err.None? {
        owner := owner';
      }
    }
  }

  /** `updateResourceMetadata(source, target)`. */
  method UpdateResourceMetadata(source: WireMetadata, target: Metadata, h: MetadataHelpers)
    returns (err: Option<Cause>)
    modifies target`version, target`updated, target`owner
    ensures CopyBack(target.Value(), err) == CopiedBack(old(target.Value()), source, h)
  {
    var parsed := h.parseVersion(source.version);
    if parsed.Failure? {
      return Some(parsed.error);
    }
    target.SetVersion(parsed.value);
    target.SetUpdated(source.updated);
    err := target.SetOwner(source.owner, h);
  }
}
