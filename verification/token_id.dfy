/** Ranks and the sequential token ids derived from them.

    A rank is stored as the raw string the minter supplied; it is classified
    as "S" for silver, "G" for gold and anything else for base. A new id is
    the contract symbol, the rank letter, and the rank's count after the mint
    in decimal. */
module TokenId {
  import opened Host
  import opened Decimal

  datatype Tier = Base | Silver | Gold

  /** The classification the mint handler, the id generator and the
      mintability query all use. */
  function TierOf(rank: string): (t: Tier)
    ensures t == Silver <==> rank == "S"
    ensures t == Gold <==> rank == "G"
  {
    if rank == "S" then Silver
    else if rank == "G" then Gold
    else Base
  }

  function Letter(t: Tier): char {
    match t
    case Base => 'B'
    case Silver => 'S'
    case Gold => 'G'
  }

  function TierOfLetter(c: char): (r: Option<Tier>)
    ensures forall t :: r == Some(t) <==> Letter(t) == c
  {
    if c == 'B' then Some(Base)
    else if c == 'S' then Some(Silver)
    else if c == 'G' then Some(Gold)
    else None
  }

  function MakeTokenId(symbol: string, t: Tier, k: nat): string {
    symbol + [Letter(t)] + NatToString(k)
  }

  /** Reads an id back into its rank and sequence number, given the symbol
      it must start with. */
  function ParseTokenId(symbol: string, id: string): Option<(Tier, nat)> {
    if |id| <= |symbol| || id[..|symbol|] != symbol then None
    else
      match TierOfLetter(id[|symbol|])
      case None => None
      case Some(t) =>
        match ParseDecimal(id[|symbol| + 1..])
        case None => None
        case Some(k) => Some((t, k))
  }

  lemma TokenIdRoundTrip(symbol: string, t: Tier, k: nat)
    ensures ParseTokenId(symbol, MakeTokenId(symbol, t, k)) == Some((t, k))
  {
    var id := MakeTokenId(symbol, t, k);
    assert id[..|symbol|] == symbol;
    assert id[|symbol|] == Letter(t);
    assert id[|symbol| + 1..] == NatToString(k);
    PrintThenParse(k);
  }

  /** Every id that parses is the id generated from its parts. */
  lemma TokenIdParsedIsMade(symbol: string, id: string)
    requires ParseTokenId(symbol, id).Some?
    ensures MakeTokenId(symbol, ParseTokenId(symbol, id).value.0, ParseTokenId(symbol, id).value.1) == id
  {
    var digits := id[|symbol| + 1..];
    ParseThenPrint(digits);
    assert id == id[..|symbol|] + [id[|symbol|]] + digits;
  }

  /** Ids made from different (rank, number) pairs never coincide. */
  lemma TokenIdInjective(symbol: string, t1: Tier, k1: nat, t2: Tier, k2: nat)
    requires MakeTokenId(symbol, t1, k1) == MakeTokenId(symbol, t2, k2)
    ensures t1 == t2 && k1 == k2
  {
    TokenIdRoundTrip(symbol, t1, k1);
    TokenIdRoundTrip(symbol, t2, k2);
  }
}
