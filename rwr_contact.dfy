/** The displayable form of a signal (RwrContact.java): created empty, then
    filled in through setters. */
module Contacts {
  import opened Wrappers

  class RwrContact {
    /** Persistence identifier, assigned by the store; no setter. */
    var id: int
    var direction: int
    /** Emitter symbol; `None` is the Java null of a contact never given one. */
    var symbol: Option<string>
    /** Threat code; any string is accepted, nothing restricts it to Threat codes. */
    var threatCd: Option<string>

    constructor ()
      ensures id == 0 && direction == 0 && symbol == None && threatCd == None
    {
      id, direction, symbol, threatCd := 0, 0, None, None;
    }

    function GetDirection(): int
      reads this
    {
      direction
    }

    function GetSymbol(): Option<string>
      reads this
    {
      symbol
    }

    function GetThreatCd(): Option<string>
      reads this
    {
      threatCd
    }

    method SetDirection(direction: int)
      modifies this
      ensures GetDirection() == direction
      ensures GetSymbol() == old(GetSymbol()) && GetThreatCd() == old(GetThreatCd()) && id == old(id)
    {
      this.direction := direction;
    }

    method SetSymbol(symbol: Option<string>)
      modifies this
      ensures GetSymbol() == symbol
      ensures GetDirection() == old(GetDirection()) && GetThreatCd() == old(GetThreatCd()) && id == old(id)
    {
      this.symbol := symbol;
    }

    method SetThreatCd(threatCd: Option<string>)
      modifies this
      ensures GetThreatCd() == threatCd
      ensures GetDirection() == old(GetDirection()) && GetSymbol() == old(GetSymbol()) && id == old(id)
    {
      this.threatCd := threatCd;
    }
  }
}
