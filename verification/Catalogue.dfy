/** The part of the interface catalogue that framing and admission depend on. */
module Catalogue {
  import opened Common

  datatype Direction = To36 | From36

  datatype Transport = CanFd | Udp

  datatype Encoding = PackedLE(bytes: nat) | CanonicalJson

  datatype Entry = Entry(
    id: nat,
    direction: Direction,
    transports: set<Transport>,
    canId: Option<nat>,
    maxPayload: nat,
    encoding: Encoding,
    validForMs: nat)

  /** The checksums are arbitrary functions of the covered bytes. */
  datatype Contract = Contract(
    entries: map<nat, Entry>,
    canIds: map<nat, nat>,
    crc16: seq<byte> -> u16,
    crc32: seq<byte> -> u32)
  {
    predicate Valid()
    {
      && (forall id :: id in entries ==> entries[id].id == id && id < 0x1_0000)
      && (forall id :: id in entries && CanFd in entries[id].transports ==> entries[id].canId.Some?)
      && (forall id :: id in entries && entries[id].canId.Some? ==>
            && entries[id].canId.value <= 0x7ff
            && entries[id].canId.value in canIds
            && canIds[entries[id].canId.value] == id)
      && (forall can :: can in canIds ==> canIds[can] in entries && entries[canIds[can]].canId == Some(can))
    }

    /** The structural header rules: field ranges, frozen validity, and the two session-zero rules. */
    function CheckHeader(id: nat, h: Header): Result<()>
    {
      if id !in entries then Err(Unsupported)
      else if !h.InRange() then Err(Schema)
      else if h.validForMs != entries[id].validForMs then Err(Schema)
      else if id == 1 then
        if (h.sessionId, h.sequence, h.targetStep) != (0, 1, 0) then Err(Schema) else Ok(())
      else if h.sessionId == 0 && id != 130 then Err(StaleSession)
      else Ok(())
    }
  }

  datatype Header = Header(
    sessionId: nat,
    sequence: nat,
    targetStep: nat,
    transactionId: nat,
    validForMs: nat)
  {
    predicate InRange()
    {
      && sessionId <= U32_MAX
      && 1 <= sequence <= U32_MAX
      && targetStep <= U32_MAX
      && 1 <= transactionId <= U32_MAX
      && 1 <= validForMs <= 1000
    }

    /** No field needs more than a u32. */
    predicate Short()
    {
      && sessionId <= U32_MAX && sequence <= U32_MAX && targetStep <= U32_MAX && transactionId <= U32_MAX
      && validForMs <= U32_MAX
    }
  }
}
