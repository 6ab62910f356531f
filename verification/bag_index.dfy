/** Looking a bag up in the bag index. */
module BagIndex {
  import opened Wrappers
  import opened Records

  /** The bag-index description of one bag version; a field the index left
      out (or the not-found placeholder) is `None`. */
  datatype BagInfo = BagInfo(
    bagId: Option<string>,
    baseId: Option<string>,
    doi: Option<string>,
    created: Option<string>)

  /** The placeholder for a bag the index does not know or could not
      describe: every field unset, in particular the bag id. */
  const NotFound: BagInfo := BagInfo(None, None, None, None)

  /** The bag is the first version of its lineage. Java's
      `bagId.equals(baseId)` is false when `baseId` is null. */
  predicate IsBase(info: BagInfo) {
    info.bagId.Some? && info.baseId == info.bagId
  }

  /** Turns the bag-index reply for one identifier into a `BagInfo`. An
      empty reply and a reply `decode` cannot read both give the not-found
      placeholder; only a transport failure is an error. */
  function ReadBagInfo(reply: Fetched<string>, decode: string -> Option<BagInfo>): (r: Result<BagInfo, Error>)
    ensures r.Failure? <==> reply.Failure?
    ensures reply.Failure? ==> r.error == TransportFailure(reply.error)
    ensures reply == Success("") ==> r == Success(NotFound)
    ensures reply.Success? && decode(reply.value).None? ==> r == Success(NotFound)
    ensures reply.Success? && reply.value != "" && decode(reply.value).Some? ==>
              r == Success(decode(reply.value).value)
    ensures r.Success? && r.value.bagId.Some? ==>
              reply.Success? && reply.value != "" && decode(reply.value) == Some(r.value)
  {
    match reply
    case Failure(message) => Failure(TransportFailure(message))
    case Success(body) =>
      if body == "" then Success(NotFound)
      else match decode(body)
        case None => Success(NotFound)
        case Some(info) => Success(info)
  }
}
