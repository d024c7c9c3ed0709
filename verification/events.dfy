/** The wire enumeration of signalling event kinds (src/renderer/socket.ts:4-11).
    The ordinals are positional and are the compatibility contract with the
    server, so they are fixed here once and everything else refers to them. */
module Events {
  import opened Common

  datatype EventKind =
    | Authentication
    | Join
    | Leave
    | SetClient
    | SetClients
    | Signal

  /** Number of kinds in the enumeration. */
  const KindCount: nat := 6

  /** The position of a kind in the enumeration, as TypeScript numbers it. */
  function Ordinal(k: EventKind): (n: nat)
    ensures n < KindCount
  {
    match k
    case Authentication => 0
    case Join => 1
    case Leave => 2
    case SetClient => 3
    case SetClients => 4
    case Signal => 5
  }

  /** The kind a numeric ordinal names, if any. */
  function FromOrdinal(n: int): (r: Option<EventKind>)
    ensures r.Some? <==> 0 <= n < KindCount
    ensures r.Some? ==> Ordinal(r.value) == n
  {
    if n == 0 then Some(Authentication)
    else if n == 1 then Some(Join)
    else if n == 2 then Some(Leave)
    else if n == 3 then Some(SetClient)
    else if n == 4 then Some(SetClients)
    else if n == 5 then Some(Signal)
    else None
  }

  /** Every kind is recovered from its ordinal, so no two kinds share one. */
  lemma OrdinalRoundTrip(k: EventKind)
    ensures FromOrdinal(Ordinal(k)) == Some(k)
    ensures forall k' :: Ordinal(k') == Ordinal(k) ==> k' == k
  {
  }
}
