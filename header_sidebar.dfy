/** `HeaderSidebarLargeComponent`: the reconnect check on init, the disconnect on destroy,
    sign-out, and the sidebar toggle over the navigation service's shared `sidebarState`.
    The 50 ms timer of the toggle is a pending count that `FireDeferredOpen` consumes. */
module HeaderSidebar {
  import opened Wrappers
  import opened Text
  import Auth
  import Notifications

  const DropDown := "dropDown"

  /** `NavigationService.sidebarState`, an object shared with the layout and the timer. */
  class SidebarState {
    var sidenavOpen: bool
    var childnavOpen: bool

    constructor (sidenavOpen: bool, childnavOpen: bool)
      ensures this.sidenavOpen == sidenavOpen && this.childnavOpen == childnavOpen
    {
      this.sidenavOpen := sidenavOpen;
      this.childnavOpen := childnavOpen;
    }
  }

  /** The two flags of the sidebar state as a value. */
  datatype Panels = Panels(sidenav: bool, childnav: bool)

  /** The result of one toggle: the new panels and whether a deferred child-nav open was
      scheduled, or the `TypeError` of reading `type` when no menu item is selected. */
  datatype ToggleOutcome = Toggled(panels: Panels, schedulesChildnav: bool) | NoSelectedItem

  /** `toggelSidebar` on the panels `p`; `selectedItemType` is `navService.selectedItem.type`,
      `None` when there is no selected item. The selected item is read only when both panels
      are closed. */
  function Toggle(p: Panels, selectedItemType: Option<string>): (o: ToggleOutcome)
    ensures p.sidenav ==> o == Toggled(Panels(p.childnav, false), false)
    ensures !p.sidenav && p.childnav ==> o == Toggled(p, false)
    ensures !p.sidenav && !p.childnav ==> (o.NoSelectedItem? <==> selectedItemType.None?)
    ensures !p.sidenav && !p.childnav && o.Toggled? ==>
              o.panels == Panels(true, false) && (o.schedulesChildnav <==> selectedItemType == Some(DropDown))
  {
    if p.childnav && p.sidenav then Toggled(Panels(true, false), false)
    else if !p.childnav && p.sidenav then Toggled(Panels(false, false), false)
    else if p.childnav then Toggled(p, false)
    else if selectedItemType.None? then NoSelectedItem
    else Toggled(Panels(true, false), selectedItemType.value == DropDown)
  }

  /** The timer's callback on the panels. */
  function DeferredOpen(p: Panels): Panels {
    p.(childnav := true)
  }

  /** A menu item without children: one toggle opens the sidenav, the next closes it again. */
  lemma PlainItemRoundTrip(itemType: string, later: Option<string>)
    requires itemType != DropDown
    ensures Toggle(Panels(false, false), Some(itemType)) == Toggled(Panels(true, false), false)
    ensures Toggle(Panels(true, false), later) == Toggled(Panels(false, false), false)
  {
  }

  /** A drop-down item: the toggle opens the sidenav, the timer the child nav, and two more
      toggles close the child nav and then the sidenav. */
  lemma DropDownRoundTrip(later: Option<string>)
    ensures Toggle(Panels(false, false), Some(DropDown)) == Toggled(Panels(true, false), true)
    ensures DeferredOpen(Panels(true, false)) == Panels(true, true)
    ensures Toggle(Panels(true, true), later) == Toggled(Panels(true, false), false)
    ensures Toggle(Panels(true, false), later) == Toggled(Panels(false, false), false)
  {
  }

  /** A second toggle before the timer fires closes the sidenav; the timer then opens the
      child nav alone, and from there no toggle changes anything. */
  lemma QuickSecondToggleStrandsChildnav(second: Option<string>, any: Option<string>)
    ensures
      var first := Toggle(Panels(false, false), Some(DropDown));
      first.Toggled? && first.schedulesChildnav &&
      var afterSecond := Toggle(first.panels, second);
      afterSecond == Toggled(Panels(false, false), false) &&
      var stranded := DeferredOpen(afterSecond.panels);
      stranded == Panels(false, true) && Toggle(stranded, any) == Toggled(stranded, false)
  {
  }

  /** The component calls `initializeWebSocket` only for a current user with a non-empty id,
      a non-empty stored token and no live connection. */
  predicate ShouldReconnect(user: Option<Auth.User>, token: Option<string>, connected: bool)
    ensures connected || user.None? || !Truthy(token) ==> !ShouldReconnect(user, token, connected)
    ensures user.Some? && user.value.id == "" ==> !ShouldReconnect(user, token, connected)
  {
    user.Some? && user.value.id != "" && Truthy(token) && !connected
  }

  class HeaderSidebarLarge {
    const auth: Auth.AuthService
    const notifications: Notifications.NotificationService
    const sidebar: SidebarState
    /** Child-nav opens scheduled by `toggelSidebar` whose timer has not fired yet. */
    var pendingChildnavOpens: nat

    constructor (auth: Auth.AuthService, notifications: Notifications.NotificationService, sidebar: SidebarState)
      ensures this.auth == auth && this.notifications == notifications && this.sidebar == sidebar
      ensures pendingChildnavOpens == 0
    {
      this.auth := auth;
      this.notifications := notifications;
      this.sidebar := sidebar;
      pendingChildnavOpens := 0;
    }

    function CurrentPanels(): Panels
      reads sidebar
    {
      Panels(sidebar.sidenavOpen, sidebar.childnavOpen)
    }

    /** `ngOnInit`, that is `checkAndReconnectIfNeeded`; `connected` is what `isConnected()`
        answers and `connectResult` what the connect observable emits. */
    method NgOnInit(connected: bool, connectResult: bool) returns (reconnected: bool)
      modifies notifications`effects
      ensures reconnected <==> ShouldReconnect(auth.GetCurrentUser(), auth.GetToken(), connected)
      ensures reconnected ==>
        notifications.effects == old(notifications.effects)
          + Notifications.ConnectEffects(auth.GetCurrentUser().value.id, auth.GetToken().value, connectResult)
      ensures !reconnected ==> notifications.effects == old(notifications.effects)
    {
      var currentUser := auth.GetCurrentUser();
      var token := auth.GetToken();
      reconnected := false;
      if currentUser.Some? && currentUser.value.id != "" && token.Some? && token.value != "" && !connected {
        notifications.InitializeWebSocket(currentUser.value.id, token.value, connectResult);
        reconnected := true;
      }
    }

    /** `ngOnDestroy`: the notification channel is closed. */
    method NgOnDestroy()
      modifies notifications`effects
      ensures notifications.effects == old(notifications.effects) + [Notifications.SocketDisconnected]
    {
      notifications.Disconnect();
    }

    /** `signout`: delegated to the authentication service. */
    method Signout(disconnectThrows: bool)
      modifies auth
      ensures auth.View() == Auth.SignedOut(old(auth.View()))
      ensures auth.currentUserSubject == old(auth.currentUserSubject).Next(None)
      ensures auth.isAuthenticatedSubject == old(auth.isAuthenticatedSubject).Next(false)
      ensures auth.effects == old(auth.effects) + Auth.SignoutEffects(disconnectThrows)
    {
      auth.Signout(disconnectThrows);
    }

    /** `toggelSidebar` with the selected item's type; `thrown` when there is no selected item. */
    method ToggleSidebar(selectedItemType: Option<string>) returns (thrown: bool)
      modifies sidebar, this`pendingChildnavOpens
      ensures thrown <==> Toggle(old(CurrentPanels()), selectedItemType).NoSelectedItem?
      ensures thrown ==> CurrentPanels() == old(CurrentPanels()) && pendingChildnavOpens == old(pendingChildnavOpens)
      ensures !thrown ==>
        && CurrentPanels() == Toggle(old(CurrentPanels()), selectedItemType).panels
        && pendingChildnavOpens == old(pendingChildnavOpens)
             + (if Toggle(old(CurrentPanels()), selectedItemType).schedulesChildnav then 1 else 0)
    {
      thrown := false;
      if sidebar.childnavOpen && sidebar.sidenavOpen {
        sidebar.childnavOpen := false;
        return;
      }
      if !sidebar.childnavOpen && sidebar.sidenavOpen {
        sidebar.sidenavOpen := false;
        return;
      }
      if !sidebar.sidenavOpen && !sidebar.childnavOpen {
        if selectedItemType.None? {
          thrown := true;
          return;
        }
        if selectedItemType.value == DropDown {
          sidebar.sidenavOpen := true;
          pendingChildnavOpens := pendingChildnavOpens + 1;
        }
      }
      if !sidebar.sidenavOpen && !sidebar.childnavOpen {
        sidebar.sidenavOpen := true;
      }
    }

    /** The 50 ms timer of a drop-down toggle fires: the child nav opens, whatever the panels
        are by then. */
    method FireDeferredOpen()
      requires pendingChildnavOpens > 0
      modifies sidebar`childnavOpen, this`pendingChildnavOpens
      ensures CurrentPanels() == DeferredOpen(old(CurrentPanels()))
      ensures pendingChildnavOpens == old(pendingChildnavOpens) - 1
    {
      sidebar.childnavOpen := true;
      pendingChildnavOpens := pendingChildnavOpens - 1;
    }
  }
}
