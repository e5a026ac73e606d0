/**
 * The navigation bar's part of the session: the connection status it reads
 * from storage once at mount, the colour it shows for it, and its menu flags.
 */
module TopNav {
  import opened Wrappers
  import Detection

  datatype ConnectionStatus = Connected | Disconnected | Reconnecting

  /** The text the bar shows, and the value it accepts from storage. */
  function StatusName(s: ConnectionStatus): (r: string)
    ensures r == "Connected" <==> s.Connected?
    ensures r == "Disconnected" <==> s.Disconnected?
    ensures r == "Reconnecting" <==> s.Reconnecting?
  {
    match s
    case Connected => "Connected"
    case Disconnected => "Disconnected"
    case Reconnecting => "Reconnecting"
  }

  /** The membership test `["Connected", "Disconnected", "Reconnecting"].includes(stored)`. */
  function ParseStatus(stored: string): (r: Option<ConnectionStatus>)
    ensures r.Some? ==> StatusName(r.value) == stored
    ensures r.None? ==> forall s: ConnectionStatus :: StatusName(s) != stored
  {
    if stored == "Connected" then Some(Connected)
    else if stored == "Disconnected" then Some(Disconnected)
    else if stored == "Reconnecting" then Some(Reconnecting)
    else None
  }

  /** The status after mount: the stored value if it is one of the three names, else the initial `Disconnected`. */
  function InitialStatus(stored: Option<string>): (s: ConnectionStatus)
    ensures stored.Some? && ParseStatus(stored.value).Some? ==> StatusName(s) == stored.value
    ensures stored.None? || ParseStatus(stored.value).None? ==> s == Disconnected
  {
    if stored.Some? && ParseStatus(stored.value).Some? then ParseStatus(stored.value).value else Disconnected
  }

  /** Every name round-trips through the storage check. */
  lemma ParseStatusName(s: ConnectionStatus)
    ensures ParseStatus(StatusName(s)) == Some(s)
  {
  }

  /** `getStatusColor` */
  function StatusColor(s: ConnectionStatus): (c: string)
    ensures c == "bg-green-500" <==> s == Connected
    ensures c == "bg-amber-500" <==> s == Reconnecting
    ensures c == "bg-red-500" <==> s == Disconnected
  {
    match s
    case Connected => "bg-green-500"
    case Reconnecting => "bg-amber-500"
    case Disconnected => "bg-red-500"
  }

  /** The status the panel's connection state shows as. */
  function StatusOfPanel(cs: Detection.ConnectionState): (s: ConnectionStatus)
    ensures StatusName(s) == Detection.StatusString(cs)
  {
    match cs
    case Connected => Connected
    case Connecting => Reconnecting
    case Disconnected => Disconnected
    case Error => Disconnected
  }

  /**
   * Every string the panel writes is accepted by the bar, which shows the
   * matching status; an `error` state therefore shows as Disconnected, in red.
   */
  lemma PanelStatusAccepted(cs: Detection.ConnectionState)
    ensures InitialStatus(Some(Detection.StatusString(cs))) == StatusOfPanel(cs)
    ensures cs == Detection.Error ==> StatusColor(InitialStatus(Some(Detection.StatusString(cs)))) == "bg-red-500"
  {
    ParseStatusName(StatusOfPanel(cs));
  }

  /** The bar's state. */
  class NavBar {
    var connectionStatus: ConnectionStatus
    var isHelpOpen: bool
    var isUserMenuOpen: bool
    var isMobileMenuOpen: bool
    var isClient: bool

    constructor ()
      ensures connectionStatus == Disconnected && !isClient
      ensures !isHelpOpen && !isUserMenuOpen && !isMobileMenuOpen
    {
      connectionStatus := Disconnected;
      isHelpOpen, isUserMenuOpen, isMobileMenuOpen := false, false, false;
      isClient := false;
    }

    /** The mount effect: mark the client side and adopt a valid stored status. */
    method Mount(stored: Option<string>)
      modifies this`connectionStatus, this`isClient
      ensures isClient
      ensures stored.Some? && ParseStatus(stored.value).Some? ==> connectionStatus == ParseStatus(stored.value).value
      ensures stored.None? || ParseStatus(stored.value).None? ==> connectionStatus == old(connectionStatus)
    {
      isClient := true;
      if stored.Some? {
        var parsed := ParseStatus(stored.value);
        if parsed.Some? {
          connectionStatus := parsed.value;
        }
      }
    }

    /** A user-menu item: both menus close; the help popover and the status stay. */
    method HandleUserAction(action: string)
      modifies this`isUserMenuOpen, this`isMobileMenuOpen
      ensures !isUserMenuOpen && !isMobileMenuOpen
      ensures isHelpOpen == old(isHelpOpen) && connectionStatus == old(connectionStatus)
    {
      isUserMenuOpen := false;
      isMobileMenuOpen := false;
    }

    /** The demo link: the help popover and the mobile menu close; the user menu stays. */
    method HandleOpenDemo()
      modifies this`isHelpOpen, this`isMobileMenuOpen
      ensures !isHelpOpen && !isMobileMenuOpen
      ensures isUserMenuOpen == old(isUserMenuOpen) && connectionStatus == old(connectionStatus)
    {
      isHelpOpen := false;
      isMobileMenuOpen := false;
    }
  }
}
