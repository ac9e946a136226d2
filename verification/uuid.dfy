/** The UUID generator, given as the sequence of tokens it will produce. */
module Uuid {

  class Generator {
    /** The text of the n-th UUID this generator hands out. */
    const supply: nat -> string
    /** The tokens handed out so far. */
    var issued: seq<string>

    constructor (supply: nat -> string)
      ensures this.supply == supply && issued == []
    {
      this.supply := supply;
      issued := [];
    }

    /** The token the next call of `New` returns. */
    function Next(): string
      reads this
    {
      supply(|issued|)
    }

    /** `uuid.New().String()`. */
    method New() returns (token: string)
      modifies this
      ensures token == old(Next())
      ensures issued == old(issued) + [token]
    {
      token := supply(|issued|);
      issued := issued + [token];
    }
  }
}
