/**
 * The TWS client of the desktop application: its connection flags, the
 * active account taken from the managed-accounts list, the reconnect timer
 * and the order-id counter. Whether the socket connects is a parameter; the
 * signals the client emits are returned as `ClientEvent` values.
 */
module IbkrClient {
  import opened Wrappers
  import opened Text

  datatype ClientEvent =
    | Connected
    | Disconnected
    | ActiveAccountChanged(account: string)
    | ErrorRaised(id: int, code: int, message: string)
    | AccountsReceived(accounts: string)
    | AccountUpdatesRequested(account: string)

  /** The order sent to TWS: the contract and order fields `placeOrder` sets. */
  datatype ApiOrder = ApiOrder(
    orderId: int, symbol: string, secType: string, exchange: string, primaryExchange: string, currency: string,
    action: string, quantity: int, orderType: string, tif: string, outsideRth: bool, lmtPrice: real)

  const NoAccount := "N/A"
  const NoAccountMessage := "No account available. Check TWS login and permissions."

  /** The list names an account: its first non-empty comma-separated part is not blank. */
  predicate HasAccount(accounts: string)
  {
    var parts := NonEmpty(SplitOn(accounts, ","));
    |parts| > 0 && Trim(parts[0]) != ""
  }

  /**
   * The active account in a managed-accounts list: the trimmed first
   * non-empty comma-separated part, or "N/A" when there is none or it trims
   * to nothing.
   */
  function ActiveAccountOf(accounts: string): (a: string)
    ensures a != ""
    ensures HasAccount(accounts) ==> a == Trim(NonEmpty(SplitOn(accounts, ","))[0])
    ensures !HasAccount(accounts) ==> a == NoAccount
  {
    var parts := NonEmpty(SplitOn(accounts, ","));
    if |parts| == 0 then NoAccount
    else if Trim(parts[0]) == "" then NoAccount
    else Trim(parts[0])
  }

  /** The signals of a managed-accounts answer after the connection part. */
  function AccountEvents(accounts: string): (events: seq<ClientEvent>)
    ensures |events| >= 2 && events[0] == ActiveAccountChanged(ActiveAccountOf(accounts))
    ensures events[|events| - 1] == AccountsReceived(accounts)
    ensures ErrorRaised(-1, 2104, NoAccountMessage) in events <==> !HasAccount(accounts)
    ensures AccountUpdatesRequested(ActiveAccountOf(accounts)) in events <==> HasAccount(accounts)
  {
    var account := ActiveAccountOf(accounts);
    if HasAccount(accounts) then
      [ActiveAccountChanged(account), AccountUpdatesRequested(account), AccountsReceived(accounts)]
    else
      [ActiveAccountChanged(NoAccount), ErrorRaised(-1, 2104, NoAccountMessage), AccountsReceived(accounts)]
  }

  /** The order `placeOrder` sends: a SMART-routed US stock, ISLAND by default, priced only when LMT. */
  function OrderFor(orderId: int, symbol: string, action: string, quantity: int, limitPrice: real,
                    orderType: string, tif: string, outsideRth: bool, primaryExchange: string): (o: ApiOrder)
    ensures o.exchange == "SMART" && o.secType == "STK" && o.currency == "USD"
    ensures o.primaryExchange == (if primaryExchange == "" then "ISLAND" else primaryExchange)
    ensures orderType == "LMT" ==> o.lmtPrice == limitPrice
    ensures orderType != "LMT" ==> o.lmtPrice == 0.0
    ensures o.orderId == orderId && o.action == action && o.quantity == quantity && o.tif == tif
    ensures o.symbol == symbol && o.orderType == orderType && o.outsideRth == outsideRth
  {
    ApiOrder(orderId, symbol, "STK", "SMART", if primaryExchange != "" then primaryExchange else "ISLAND", "USD",
             action, quantity, orderType, tif, outsideRth, if orderType == "LMT" then limitPrice else 0.0)
  }

  class Client {
    var isConnected: bool
    var socketConnected: bool
    var disconnectLogged: bool
    var activeAccount: string
    var nextOrderId: int
    var host: string
    var port: int
    var clientId: int
    var messageTimerActive: bool
    var reconnectTimerActive: bool

    /** Disconnected means no account; an established connection has its outage warning re-armed. */
    predicate Valid()
      reads this
    {
      (!isConnected ==> activeAccount == NoAccount) && (isConnected ==> !disconnectLogged)
    }

    constructor()
      ensures Valid() && !isConnected && !socketConnected && !disconnectLogged
      ensures activeAccount == NoAccount && nextOrderId == 1 && host == "" && port == 0 && clientId == 0
      ensures !messageTimerActive && !reconnectTimerActive
    {
      isConnected, socketConnected, disconnectLogged := false, false, false;
      activeAccount := NoAccount;
      nextOrderId := 1;
      host, port, clientId := "", 0, 0;
      messageTimerActive, reconnectTimerActive := false, false;
    }

    /** `apiReady`: connected, the order-id counter taken from TWS, the outage warning re-armed. */
    method OnApiReady(firstOrderId: int) returns (events: seq<ClientEvent>)
      requires Valid()
      modifies this
      ensures isConnected && nextOrderId == firstOrderId && !disconnectLogged && !reconnectTimerActive
      ensures events == [Connected]
      ensures activeAccount == old(activeAccount) && socketConnected == old(socketConnected)
      ensures host == old(host) && messageTimerActive == old(messageTimerActive)
      ensures Valid()
    {
      isConnected := true;
      reconnectTimerActive := false;
      nextOrderId := firstOrderId;
      disconnectLogged := false;
      events := [Connected];
    }

    /**
     * `managedAccounts`: an answer while disconnected also establishes the
     * connection, once; the first account becomes the active one.
     * `AccountUpdatesRequested` stands for the call to `requestAccountUpdates`,
     * not for a request on the wire: that call itself sends nothing without a
     * connected socket.
     */
    method OnManagedAccounts(accounts: string) returns (events: seq<ClientEvent>)
      requires Valid()
      modifies this
      ensures isConnected && !disconnectLogged
      ensures reconnectTimerActive == (old(isConnected) && old(reconnectTimerActive))
      ensures activeAccount == ActiveAccountOf(accounts)
      ensures events == (if old(isConnected) then [] else [Connected]) + AccountEvents(accounts)
      ensures nextOrderId == old(nextOrderId) && socketConnected == old(socketConnected) && host == old(host)
      ensures messageTimerActive == old(messageTimerActive)
      ensures Valid()
    {
      events := [];
      if !isConnected {
        isConnected := true;
        reconnectTimerActive := false;
        disconnectLogged := false;
        events := [Connected];
      }
      activeAccount := ActiveAccountOf(accounts);
      events := events + AccountEvents(accounts);
    }

    /** `connect`: `accepted` is whether the socket connected; a refusal starts the reconnect timer. */
    method Connect(newHost: string, newPort: int, newClientId: int, accepted: bool)
      requires Valid()
      modifies this
      ensures host == newHost && port == newPort && clientId == newClientId
      ensures socketConnected == (old(socketConnected) || accepted)
      ensures messageTimerActive == (old(messageTimerActive) || accepted)
      ensures reconnectTimerActive == (old(reconnectTimerActive) || !accepted)
      ensures isConnected == old(isConnected) && activeAccount == old(activeAccount)
      ensures nextOrderId == old(nextOrderId) && disconnectLogged == old(disconnectLogged)
      ensures Valid()
    {
      host, port, clientId := newHost, newPort, newClientId;
      if accepted {
        socketConnected := true;
        messageTimerActive := true;
      } else {
        reconnectTimerActive := true;
      }
    }

    /**
     * `disconnect(stopReconnect)`: closes the socket; a client already
     * disconnected emits nothing; otherwise the account becomes "N/A", the
     * outage is logged once, and without `stopReconnect` the reconnect timer
     * starts.
     */
    method Disconnect(stopReconnect: bool) returns (events: seq<ClientEvent>, warningLogged: bool)
      requires Valid()
      modifies this
      ensures !isConnected && !socketConnected && !messageTimerActive && activeAccount == NoAccount
      ensures !old(isConnected) ==>
        events == [] && !warningLogged && disconnectLogged == old(disconnectLogged)
        && reconnectTimerActive == (old(reconnectTimerActive) && !stopReconnect)
      ensures old(isConnected) ==>
        events == [ActiveAccountChanged(NoAccount), Disconnected] && warningLogged && disconnectLogged
        && reconnectTimerActive == !stopReconnect
      ensures nextOrderId == old(nextOrderId) && host == old(host)
      ensures Valid()
    {
      messageTimerActive := false;
      if stopReconnect {
        reconnectTimerActive := false;
      }
      if socketConnected {
        socketConnected := false;
      }
      if !isConnected {
        return [], false;
      }
      isConnected := false;
      activeAccount := NoAccount;
      events := [ActiveAccountChanged(NoAccount)];
      warningLogged := false;
      if !disconnectLogged {
        warningLogged := true;
        disconnectLogged := true;
      }
      events := events + [Disconnected];
      if !stopReconnect {
        reconnectTimerActive := true;
      }
    }

    /** `attemptReconnect`: only a disconnected client with a host tries again. */
    method AttemptReconnect(accepted: bool) returns (attempted: bool)
      requires Valid()
      modifies this
      ensures attempted == (!old(isConnected) && old(host) != "")
      ensures attempted ==>
        socketConnected == accepted && messageTimerActive == (old(messageTimerActive) || accepted)
        && reconnectTimerActive == (old(reconnectTimerActive) || !accepted)
      ensures !attempted ==>
        socketConnected == old(socketConnected) && messageTimerActive == old(messageTimerActive)
        && reconnectTimerActive == old(reconnectTimerActive)
      ensures isConnected == old(isConnected) && activeAccount == old(activeAccount) && host == old(host)
      ensures nextOrderId == old(nextOrderId) && disconnectLogged == old(disconnectLogged)
      ensures Valid()
    {
      attempted := !isConnected && host != "";
      if attempted {
        if socketConnected {
          socketConnected := false;
        }
        Connect(host, port, clientId, accepted);
      }
    }

    /**
     * `placeOrder`: without a socket it returns -1 and keeps the counter;
     * otherwise it sends the order under the next id and advances the counter.
     */
    method PlaceOrder(symbol: string, action: string, quantity: int, limitPrice: real, orderType: string,
                      tif: string, outsideRth: bool, primaryExchange: string)
      returns (orderId: int, sent: Option<ApiOrder>)
      modifies this
      ensures !old(socketConnected) ==> orderId == -1 && sent == None && nextOrderId == old(nextOrderId)
      ensures old(socketConnected) ==>
        orderId == old(nextOrderId) && nextOrderId == old(nextOrderId) + 1
        && sent == Some(OrderFor(orderId, symbol, action, quantity, limitPrice, orderType, tif, outsideRth,
                                 primaryExchange))
      ensures isConnected == old(isConnected) && socketConnected == old(socketConnected)
      ensures activeAccount == old(activeAccount) && disconnectLogged == old(disconnectLogged)
      ensures host == old(host) && port == old(port) && clientId == old(clientId)
      ensures messageTimerActive == old(messageTimerActive) && reconnectTimerActive == old(reconnectTimerActive)
    {
      if !socketConnected {
        return -1, None;
      }
      orderId := nextOrderId;
      nextOrderId := nextOrderId + 1;
      sent := Some(OrderFor(orderId, symbol, action, quantity, limitPrice, orderType, tif, outsideRth,
                            primaryExchange));
    }
  }

  /** The first account of a list whose first part is a non-blank account without a comma is the active one. */
  lemma FirstAccountIsActive(first: string, rest: string)
    requires ',' !in first && Trim(first) != ""
    ensures ActiveAccountOf(first + "," + rest) == Trim(first)
  {
    SplitAtFirst(first, ",", rest);
    assert Trim("") == "";
    var parts := SplitOn(first + "," + rest, ",");
    assert parts == [first] + SplitOn(rest, ",");
    assert NonEmpty(parts) == [first] + NonEmpty(SplitOn(rest, ","));
  }

  /** A single account name without commas is taken trimmed; a list of nothing but commas gives "N/A". */
  lemma SingleAccount(account: string)
    requires ',' !in account
    ensures Trim(account) != "" ==> ActiveAccountOf(account) == Trim(account)
    ensures account == "" ==> ActiveAccountOf(account) == NoAccount
  {
    SplitNoSeparator(account, ',');
  }
}
