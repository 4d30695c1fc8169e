/**
 * The display-group sync of the desktop application: the active symbol is
 * pushed to a TWS display group as `<conId>@SMART` (or `<symbol>@SMART`
 * without a contract id), each request taking an id from a counter that
 * starts at 20000. The configured group and the client's connection state
 * are parameters; the requests are returned as `GroupCall` values.
 */
module DisplayGroup {
  import opened Text

  datatype GroupCall =
    | SubscribeToGroupEvents(reqId: int, groupId: int)
    | UpdateDisplayGroup(reqId: int, contractInfo: string)
    | QueryDisplayGroups(reqId: int)

  const FirstReqId := 20000
  const NoGroup := 0

  /** `formatContractInfo`: the contract id at SMART when there is one, else the symbol at SMART. */
  function ContractInfo(symbol: string, exchange: string, conId: int): (info: string)
    ensures conId > 0 ==> info == Decimal(conId) + "@SMART"
    ensures conId <= 0 ==> info == symbol + "@SMART"
  {
    if conId > 0 then Decimal(conId) + "@SMART" else symbol + "@SMART"
  }

  class DisplayGroupManager {
    var nextReqId: int

    predicate Valid()
      reads this
    {
      nextReqId >= FirstReqId
    }

    constructor()
      ensures Valid() && nextReqId == FirstReqId
    {
      nextReqId := FirstReqId;
    }

    /**
     * `updateActiveSymbol`: nothing happens with no group configured or
     * without a connection; otherwise one fresh request id subscribes to the
     * group and updates it with the contract.
     */
    method UpdateActiveSymbol(symbol: string, exchange: string, conId: int, groupId: int, connected: bool)
      returns (calls: seq<GroupCall>)
      requires Valid()
      modifies this
      ensures groupId == NoGroup || !connected ==> calls == [] && nextReqId == old(nextReqId)
      ensures groupId != NoGroup && connected ==>
        nextReqId == old(nextReqId) + 1
        && calls == [SubscribeToGroupEvents(old(nextReqId), groupId),
                     UpdateDisplayGroup(old(nextReqId), ContractInfo(symbol, exchange, conId))]
      ensures Valid()
    {
      if groupId == NoGroup {
        return [];
      }
      if !connected {
        return [];
      }
      var contractInfo := ContractInfo(symbol, exchange, conId);
      var reqId := nextReqId;
      nextReqId := nextReqId + 1;
      calls := [SubscribeToGroupEvents(reqId, groupId), UpdateDisplayGroup(reqId, contractInfo)];
    }

    /** `queryDisplayGroups`: a request id is used only when connected. */
    method QueryGroups(connected: bool) returns (calls: seq<GroupCall>)
      requires Valid()
      modifies this
      ensures !connected ==> calls == [] && nextReqId == old(nextReqId)
      ensures connected ==> calls == [QueryDisplayGroups(old(nextReqId))] && nextReqId == old(nextReqId) + 1
      ensures Valid()
    {
      if !connected {
        return [];
      }
      var reqId := nextReqId;
      nextReqId := nextReqId + 1;
      calls := [QueryDisplayGroups(reqId)];
    }
  }

  /** The exchange never enters the contract text. */
  lemma ExchangeIgnored(symbol: string, exchange: string, other: string, conId: int)
    ensures ContractInfo(symbol, exchange, conId) == ContractInfo(symbol, other, conId)
  {
  }

  /** The contract id can be read back from the front of the contract text, up to the '@'. */
  lemma ContractIdReadBack(symbol: string, exchange: string, conId: int)
    requires conId > 0
    ensures var info := ContractInfo(symbol, exchange, conId);
      SplitOn(info, "@") == [Decimal(conId), "SMART"]
      && AllDigits(Decimal(conId)) && DecimalValue(Decimal(conId)) == conId
  {
    var d := Decimal(conId);
    NoAtInDecimal(conId);
    AtSmart(d);
    SplitAtFirst(d, "@", "SMART");
    assert '@' !in "SMART";
    SplitNoSeparator("SMART", '@');
    DecimalRoundTrip(conId);
  }

  lemma NoAtInDecimal(n: nat)
    ensures '@' !in Decimal(n)
  {
    var d := Decimal(n);
    assert forall i :: 0 <= i < |d| ==> IsDigit(d[i]);
  }

  lemma AtSmart(d: string)
    ensures d + "@SMART" == d + "@" + "SMART"
  {
    assert "@SMART" == "@" + "SMART";
  }
}
