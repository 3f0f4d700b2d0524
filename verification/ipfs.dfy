/** `fetchIpfsMetadata`: the content hash of a property's metadata document is
    resolved through the configured HTTP gateway. The same function is
    written out in the listing, rentals and owner pages. */
module Ipfs {
  import opened Common

  /** The fields of the metadata JSON document the pages use. `amenities` is
      `None` when the field is missing or is not an array. */
  datatype Metadata = Metadata(
    title: Option<string>,
    imageUrl: Option<string>,
    amenities: Option<seq<string>>,
    area: Option<int>)

  /** The gateway as the front end sees it: the configured base URL (the
      `NEXT_PUBLIC_IPFS_GATEWAY` variable) and the documents a GET returns
      successfully as JSON, by URL. A URL with no document is a fetch that
      failed, answered with a non-2xx status, or did not parse. */
  datatype IpfsEnv = IpfsEnv(gatewayUrl: Option<string>, documents: map<string, Metadata>)

  const UndefinedPrefix: string := "undefined"

  /** A hash that the fetcher is willing to resolve. */
  predicate UsableHash(hash: Option<string>)
  {
    Truthy(hash) && !StartsWith(hash.value, UndefinedPrefix)
  }

  /** The one GET request the fetcher issues, or `None` when it returns
      `null` without touching the network. */
  function MetadataRequest(env: IpfsEnv, hash: Option<string>): (url: Option<string>)
    ensures url.None? <==> !Truthy(hash) || StartsWith(hash.value, UndefinedPrefix) || !Truthy(env.gatewayUrl)
    ensures url.Some? ==> url.value == env.gatewayUrl.value + "/ipfs/" + hash.value
  {
    if !UsableHash(hash) then None
    else if !Truthy(env.gatewayUrl) then None
    else Some(env.gatewayUrl.value + "/ipfs/" + hash.value)
  }

  /** `fetchIpfsMetadata(hash)`: the parsed document, or `null`. It never throws. */
  function FetchMetadata(env: IpfsEnv, hash: Option<string>): (m: Option<Metadata>)
    ensures MetadataRequest(env, hash).None? ==> m.None?
    ensures m.Some? <==> MetadataRequest(env, hash).Some? && MetadataRequest(env, hash).value in env.documents
    ensures m.Some? ==> m.value == env.documents[MetadataRequest(env, hash).value]
  {
    match MetadataRequest(env, hash)
    case None => None
    case Some(url) => if url in env.documents then Some(env.documents[url]) else None
  }

  /** `metadata?.title`, `metadata?.imageUrl`, `metadata?.area`. */
  function TitleOf(m: Option<Metadata>): Option<string>
  {
    if m.Some? then m.value.title else None
  }

  function ImageUrlOf(m: Option<Metadata>): Option<string>
  {
    if m.Some? then m.value.imageUrl else None
  }

  function AreaOf(m: Option<Metadata>): Option<int>
  {
    if m.Some? then m.value.area else None
  }

  /** `Array.isArray(metadata?.amenities) ? [...metadata.amenities] : []` */
  function AmenitiesOf(m: Option<Metadata>): (r: seq<string>)
    ensures m.None? || m.value.amenities.None? ==> r == []
    ensures m.Some? && m.value.amenities.Some? ==> r == m.value.amenities.value
  {
    if m.Some? && m.value.amenities.Some? then m.value.amenities.value else []
  }

  /** A hash that is empty, absent or starts with "undefined" yields `null`
      and no request, whatever the gateway holds. */
  lemma MalformedHashIsNotFetched(env: IpfsEnv, hash: Option<string>)
    requires hash.None? || hash.value == "" || StartsWith(hash.value, UndefinedPrefix)
    ensures MetadataRequest(env, hash).None? && FetchMetadata(env, hash).None?
  {
  }
}
