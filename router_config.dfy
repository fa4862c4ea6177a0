/**
 * `useBrowserLocation` (src/lib/router-config.js): a `location` state kept in
 * step with the browser's history stack, by `navigate` (which pushes) and by a
 * popstate listener attached on mount and detached on teardown.
 */
module RouterConfig {

  class BrowserLocation {
    /** `typeof window !== "undefined"`. */
    const hasWindow: bool
    /** The session history entries, as pathnames. */
    var entries: seq<string>
    /** The current entry; `window.location.pathname` is `entries[index]`. */
    var index: nat
    /** The hook's `location` state. */
    var location: string
    /** The popstate listener is attached. */
    var listening: bool

    ghost predicate Valid()
      reads this
    {
      index < |entries|
    }

    /** `window.location.pathname`. */
    function Pathname(): string
      reads this
      requires Valid()
    {
      entries[index]
    }

    /** While the listener is attached, the state shows the current entry. */
    ghost predicate Tracking()
      reads this
    {
      Valid() && (hasWindow && listening ==> location == Pathname())
    }

    /** The initial state: the page's pathname, or "/" when rendered without a window. */
    constructor (hasWindow: bool, pathname: string)
      ensures Tracking()
      ensures this.hasWindow == hasWindow && entries == [pathname] && index == 0
      ensures location == if hasWindow then pathname else "/"
      ensures !listening
    {
      this.hasWindow := hasWindow;
      entries := [pathname];
      index := 0;
      location := if hasWindow then pathname else "/";
      listening := false;
    }

    /** The effect on mount: read the pathname once, then listen for popstate. */
    method Mount()
      requires Tracking()
      modifies this
      ensures Tracking()
      ensures entries == old(entries) && index == old(index)
      ensures hasWindow ==> location == Pathname() && listening
      ensures !hasWindow ==> location == old(location) && listening == old(listening)
    {
      if hasWindow {
        location := entries[index];
        listening := true;
      }
    }

    /** The effect's cleanup: detach the listener. */
    method Teardown()
      requires Tracking()
      modifies this
      ensures Tracking()
      ensures entries == old(entries) && index == old(index) && location == old(location)
      ensures hasWindow ==> !listening
      ensures !hasWindow ==> listening == old(listening)
    {
      if hasWindow {
        listening := false;
      }
    }

    /** `navigate(to)`: `pushState` drops the forward entries and appends `to`; the state follows. */
    method Navigate(to: string)
      requires Tracking()
      modifies this
      ensures Tracking()
      ensures listening == old(listening)
      ensures hasWindow ==> entries == old(entries[..index + 1]) + [to] && index == old(index) + 1
      ensures hasWindow ==> location == to && Pathname() == to
      ensures !hasWindow ==> entries == old(entries) && index == old(index) && location == old(location)
    {
      if hasWindow {
        entries := entries[..index + 1] + [to];
        index := index + 1;
        location := to;
      }
    }

    /**
     * The user moves to history entry `target` (back, forward, `history.go`):
     * the browser fires popstate, and the listener, if attached, copies the
     * pathname into the state. A target outside the stack does nothing.
     */
    method Traverse(target: int)
      requires Tracking()
      modifies this
      ensures Tracking()
      ensures entries == old(entries) && listening == old(listening)
      ensures hasWindow && 0 <= target < |entries| ==> index == target
      ensures !(hasWindow && 0 <= target < |entries|) ==> index == old(index)
      ensures hasWindow && listening && 0 <= target < |entries| ==> location == entries[target]
      ensures !(hasWindow && listening && 0 <= target < |entries|) ==> location == old(location)
    {
      if hasWindow && 0 <= target < |entries| {
        index := target;
        if listening {
          location := entries[index];
        }
      }
    }
  }

  /** Navigating twice and going back once shows the first destination again. */
  method BackAfterTwoNavigations(pathname: string, first: string, second: string)
    returns (shown: string, history: seq<string>)
    ensures shown == first
    ensures history == [pathname, first, second]
  {
    var b := new BrowserLocation(true, pathname);
    b.Mount();
    b.Navigate(first);
    b.Navigate(second);
    b.Traverse(1);
    shown := b.location;
    history := b.entries;
  }
}
