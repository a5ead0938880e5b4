/**
 * The application shell: the current page kept in step with the URL
 * fragment, the help dialog, and the keyboard handler that drives the
 * shortcut recogniser, the theme provider and the notification store.
 */
module Application {

  import opened Wrappers
  import opened Text
  import opened Router
  import opened Shortcuts
  import Theme
  import Notifications

  class App {
    const theme: Theme.ThemeProvider
    const notifier: Notifications.NotificationProvider

    var currentPage: PageName
    /** The URL fragment without its `#`; `window.location.hash` reads `LocationHash(fragment)`. */
    var fragment: string
    var isHelpModalOpen: bool

    var shiftAndFirstTPressed: bool
    var shiftAndFirstAPressed: bool
    var shiftAndFirstHPressed: bool
    var shiftAndFirstEPressed: bool
    var shiftAndFirstCPressed: bool

    /** The sequence timeout refs: the deadline of the live timer, or `None` for a null ref. */
    var themeSequenceTimeout: Option<int>
    var aboutNavSequenceTimeout: Option<int>
    var heroNavSequenceTimeout: Option<int>
    var expertiseNavSequenceTimeout: Option<int>
    var contactNavSequenceTimeout: Option<int>

    /** The virtual clock, in milliseconds. */
    var now: int

    function Flags(): ArmFlags
      reads this
    {
      ArmFlags(shiftAndFirstTPressed, shiftAndFirstAPressed, shiftAndFirstHPressed,
               shiftAndFirstEPressed, shiftAndFirstCPressed)
    }

    function TimeoutRefs(): Timers
      reads this
    {
      Timers(themeSequenceTimeout, aboutNavSequenceTimeout, heroNavSequenceTimeout,
             expertiseNavSequenceTimeout, contactNavSequenceTimeout)
    }

    /** The recogniser state held in the fields above. */
    function Recogniser(): Engine
      reads this
    {
      Engine(Flags(), TimeoutRefs(), now)
    }

    /**
     * At most one binding is armed and its timer is live; the URL parses to
     * the current page; the providers keep their own invariants.
     */
    ghost predicate Valid()
      reads this, theme, notifier
    {
      && Coherent(Recogniser())
      && InSync(fragment, currentPage)
      && theme.Valid()
      && notifier.Valid()
    }

    /**
     * Mounting: the page is parsed from the initial hash, the page-to-hash
     * effect runs once, nothing is armed and the help dialog is closed.
     */
    constructor (initialFragment: string, theme: Theme.ThemeProvider,
                 notifier: Notifications.NotificationProvider)
      requires theme.Valid() && notifier.Valid()
      ensures Valid()
      ensures this.theme == theme && this.notifier == notifier
      ensures currentPage == PageFromHash(LocationHash(initialFragment))
      ensures fragment == SyncedFragment(initialFragment, currentPage)
      ensures Recogniser() == Idle && !isHelpModalOpen
    {
      this.theme := theme;
      this.notifier := notifier;
      currentPage := PageFromHash(LocationHash(initialFragment));
      fragment := initialFragment;
      isHelpModalOpen := false;
      shiftAndFirstTPressed, shiftAndFirstAPressed, shiftAndFirstHPressed := false, false, false;
      shiftAndFirstEPressed, shiftAndFirstCPressed := false, false;
      themeSequenceTimeout, aboutNavSequenceTimeout, heroNavSequenceTimeout := None, None, None;
      expertiseNavSequenceTimeout, contactNavSequenceTimeout := None, None;
      now := 0;
      new;
      SyncLocation();
      IdleIsCoherent();
    }

    /**
     * The page-to-hash effect: the fragment is written only when it
     * differs from the page's canonical fragment.
     */
    method SyncLocation()
      modifies this`fragment
      ensures fragment == SyncedFragment(old(fragment), currentPage)
      ensures InSync(fragment, currentPage)
    {
      var newHash := CanonicalFragment(currentPage);
      if SubstringFrom(LocationHash(fragment), 1) != newHash {
        fragment := newHash;
      }
    }

    /** `setCurrentPage`; a change of page runs the page-to-hash effect. */
    method SetCurrentPage(p: PageName)
      modifies this`currentPage, this`fragment
      ensures currentPage == p
      ensures p == old(currentPage) ==> fragment == old(fragment)
      ensures p != old(currentPage) ==> fragment == SyncedFragment(old(fragment), p)
    {
      if p != currentPage {
        currentPage := p;
        SyncLocation();
      }
    }

    /** The `hashchange` listener: the browser moved to `newFragment` and the page follows it. */
    method OnHashChange(newFragment: string)
      requires Valid()
      modifies this`currentPage, this`fragment
      ensures Valid()
      ensures currentPage == PageFromHash(LocationHash(newFragment))
      ensures currentPage == old(currentPage) ==> fragment == newFragment
      ensures currentPage != old(currentPage) ==> fragment == SyncedFragment(newFragment, currentPage)
    {
      fragment := newFragment;
      SetCurrentPage(PageFromHash(LocationHash(fragment)));
    }

    method OpenHelpModal()
      modifies this`isHelpModalOpen
      ensures isHelpModalOpen
    {
      isHelpModalOpen := true;
    }

    method CloseHelpModal()
      modifies this`isHelpModalOpen
      ensures !isHelpModalOpen
    {
      isHelpModalOpen := false;
    }

    /** Sets a binding's flag and schedules its timeout 750 ms ahead. */
    method Arm(b: Binding)
      modifies this
      ensures Flags() == SetArmed(old(Flags()), b, true)
      ensures TimeoutRefs() == SetTimer(old(TimeoutRefs()), b, Some(old(now) + ArmTimeoutMs))
      ensures now == old(now) && currentPage == old(currentPage) && fragment == old(fragment)
      ensures isHelpModalOpen == old(isHelpModalOpen)
    {
      var deadline := Some(now + ArmTimeoutMs);
      match b
      case ThemeToggle => shiftAndFirstTPressed, themeSequenceTimeout := true, deadline;
      case AboutNav => shiftAndFirstAPressed, aboutNavSequenceTimeout := true, deadline;
      case HeroNav => shiftAndFirstHPressed, heroNavSequenceTimeout := true, deadline;
      case ExpertiseNav => shiftAndFirstEPressed, expertiseNavSequenceTimeout := true, deadline;
      case ContactNav => shiftAndFirstCPressed, contactNavSequenceTimeout := true, deadline;
    }

    /** Clears a binding's flag, clears its timeout and nulls the ref. */
    method Disarm(b: Binding)
      modifies this
      ensures Flags() == SetArmed(old(Flags()), b, false)
      ensures TimeoutRefs() == SetTimer(old(TimeoutRefs()), b, None)
      ensures now == old(now) && currentPage == old(currentPage) && fragment == old(fragment)
      ensures isHelpModalOpen == old(isHelpModalOpen)
    {
      match b
      case ThemeToggle => shiftAndFirstTPressed, themeSequenceTimeout := false, None;
      case AboutNav => shiftAndFirstAPressed, aboutNavSequenceTimeout := false, None;
      case HeroNav => shiftAndFirstHPressed, heroNavSequenceTimeout := false, None;
      case ExpertiseNav => shiftAndFirstEPressed, expertiseNavSequenceTimeout := false, None;
      case ContactNav => shiftAndFirstCPressed, contactNavSequenceTimeout := false, None;
    }

    /** A confirmed binding's action: toggle the theme, or go to the binding's page. */
    method RunAction(b: Binding)
      requires theme.Valid()
      modifies this`currentPage, this`fragment, theme
      ensures theme.Valid()
      ensures InSync(old(fragment), old(currentPage)) ==> InSync(fragment, currentPage)
      ensures theme.currentThemeName ==
        (if b == ThemeToggle then Theme.Flip(old(theme.currentThemeName)) else old(theme.currentThemeName))
      ensures theme.storage == old(theme.storage)[Theme.PreferenceKey := theme.currentThemeName]
      ensures currentPage == (if b != ThemeToggle then Destination(b).value else old(currentPage))
      ensures fragment ==
        (if b != ThemeToggle && Destination(b).value != old(currentPage)
         then SyncedFragment(old(fragment), Destination(b).value)
         else old(fragment))
    {
      if b == ThemeToggle {
        theme.ToggleTheme();
      } else {
        SetCurrentPage(Destination(b).value);
        FragmentRoundTrip(currentPage);
      }
    }

    /** The info notification a confirmed binding shows for 2000 ms. */
    method Announce(b: Binding, themeAtRender: Theme.ThemeName) returns (expiry: Notifications.Expiry)
      requires notifier.Valid()
      modifies notifier
      ensures notifier.Valid()
      ensures notifier.notifications ==
        [Notifications.Notification(old(notifier.nextId), ConfirmMessage(b, themeAtRender),
                                    Notifications.Info, Some(ConfirmDurationMs))]
      ensures notifier.nextId == old(notifier.nextId) + 1
      ensures expiry == Notifications.Expiry(old(notifier.nextId), ConfirmDurationMs)
    {
      expiry := notifier.Show(ConfirmMessage(b, themeAtRender), Notifications.Info, Some(ConfirmDurationMs));
    }

    /**
     * A confirmed binding: its action (toggle the theme or navigate), one
     * 2000 ms info notification, then it is disarmed. `themeAtRender` is
     * the theme the handler was rendered with, which names the message.
     */
    method Fire(b: Binding, themeAtRender: Theme.ThemeName) returns (expiry: Notifications.Expiry)
      requires theme.Valid() && notifier.Valid()
      modifies this, theme, notifier
      ensures theme.Valid() && notifier.Valid()
      ensures InSync(old(fragment), old(currentPage)) ==> InSync(fragment, currentPage)
      ensures Flags() == SetArmed(old(Flags()), b, false)
      ensures TimeoutRefs() == SetTimer(old(TimeoutRefs()), b, None)
      ensures now == old(now) && isHelpModalOpen == old(isHelpModalOpen)
      ensures Effects(Confirmed(b), themeAtRender, Some(expiry))
    {
      RunAction(b);
      expiry := Announce(b, themeAtRender);
      Disarm(b);
    }

    /**
     * What a key press's outcome does to the theme, the page, the URL
     * fragment and the notification store: a confirmed binding runs its
     * action (a navigation to another page also runs the page-to-hash
     * effect) and shows one 2000 ms info notification whose expiry is
     * returned; every other outcome leaves all four alone. Storage keeps
     * every key other than the theme preference.
     */
    twostate predicate Effects(o: Outcome, themeAtRender: Theme.ThemeName,
                               new expiry: Option<Notifications.Expiry>)
      reads this, theme, notifier
    {
      && theme.currentThemeName ==
           (if o == Confirmed(ThemeToggle) then Theme.Flip(old(theme.currentThemeName))
            else old(theme.currentThemeName))
      && theme.storage == old(theme.storage)[Theme.PreferenceKey := theme.currentThemeName]
      && currentPage ==
           (if o.Confirmed? && o.binding != ThemeToggle then Destination(o.binding).value
            else old(currentPage))
      && fragment ==
           (if o.Confirmed? && o.binding != ThemeToggle && Destination(o.binding).value != old(currentPage)
            then SyncedFragment(old(fragment), Destination(o.binding).value)
            else old(fragment))
      && (o.Confirmed? ==>
           && notifier.notifications ==
                [Notifications.Notification(old(notifier.nextId), ConfirmMessage(o.binding, themeAtRender),
                                            Notifications.Info, Some(ConfirmDurationMs))]
           && notifier.nextId == old(notifier.nextId) + 1
           && expiry == Some(Notifications.Expiry(old(notifier.nextId), ConfirmDurationMs)))
      && (!o.Confirmed? ==>
           && notifier.notifications == old(notifier.notifications)
           && notifier.nextId == old(notifier.nextId)
           && expiry == None)
    }

    /**
     * `handleKeyDown`: the guard for editable targets, the help keys, then
     * the shortcut chain. The new recogniser state is `KeyStep` of the old
     * one, and the theme, page and notification store change only as the
     * outcome's `Effects` say.
     */
    method HandleKeyDown(ev: KeyEvent) returns (outcome: Outcome, expiry: Option<Notifications.Expiry>)
      requires Valid()
      modifies this, theme, notifier
      ensures Valid()
      ensures outcome == Dispatch(old(Flags()), old(isHelpModalOpen), ev)
      ensures Recogniser() == KeyStep(old(Recogniser()), old(isHelpModalOpen), ev)
      ensures isHelpModalOpen == HelpAfter(old(isHelpModalOpen), outcome)
      ensures Effects(outcome, old(theme.currentThemeName), expiry)
    {
      KeyStepCoherent(Recogniser(), isHelpModalOpen, ev);
      expiry := None;
      if InEditableTarget(ev) {
        outcome := EditableTarget(ev.key == "Escape" && isHelpModalOpen);
        if ev.key == "Escape" && isHelpModalOpen {
          CloseHelpModal();
        }
        return;
      }
      if ev.key == "Escape" && isHelpModalOpen {
        outcome := HelpClosed;
        CloseHelpModal();
        return;
      }
      if ev.shiftKey && ev.key == "?" {
        outcome := HelpToggled;
        if isHelpModalOpen {
          CloseHelpModal();
        } else {
          OpenHelpModal();
        }
        return;
      }
      outcome, expiry := ShortcutChain(ev, theme.currentThemeName);
    }

    /**
     * Binding `b`'s two branches of the handler's chain: resolve it when its
     * flag is set (fire on its letter, else cancel), or arm it on Shift and
     * its letter when the other four flags are clear. `None` falls through
     * to the next binding and changes nothing.
     */
    method BindingBranch(b: Binding, ev: KeyEvent, themeAtRender: Theme.ThemeName)
      returns (branch: Option<Outcome>, expiry: Option<Notifications.Expiry>)
      requires theme.Valid() && notifier.Valid()
      modifies this, theme, notifier
      ensures branch == Branch(old(Flags()), b, ev)
      ensures branch.None? ==> unchanged(this) && unchanged(theme) && unchanged(notifier) && expiry == None
      ensures Flags() == FlagsAfter(old(Flags()), Or(branch, Unhandled))
      ensures TimeoutRefs() == TimersAfter(old(TimeoutRefs()), Or(branch, Unhandled), now)
      ensures now == old(now) && isHelpModalOpen == old(isHelpModalOpen)
      ensures theme.Valid() && notifier.Valid()
      ensures InSync(old(fragment), old(currentPage)) ==> InSync(fragment, currentPage)
      ensures Effects(Or(branch, Unhandled), themeAtRender, expiry)
    {
      if IsArmed(Flags(), b) {
        var o;
        o, expiry := ResolveArmed(b, ev, themeAtRender);
        branch := Some(o);
      } else if ev.shiftKey && ToLower(ev.key) == [Letter(b)] && OthersClear(Flags(), b) {
        branch, expiry := Some(Arming(b)), None;
        Arm(b);
      } else {
        branch, expiry := None, None;
      }
    }

    /** The key after binding `b` was armed: its letter fires it, any other key cancels it. */
    method ResolveArmed(b: Binding, ev: KeyEvent, themeAtRender: Theme.ThemeName)
      returns (outcome: Outcome, expiry: Option<Notifications.Expiry>)
      requires theme.Valid() && notifier.Valid()
      modifies this, theme, notifier
      ensures outcome == Resolve(b, ev.key)
      ensures Flags() == SetArmed(old(Flags()), b, false)
      ensures TimeoutRefs() == SetTimer(old(TimeoutRefs()), b, None)
      ensures now == old(now) && isHelpModalOpen == old(isHelpModalOpen)
      ensures theme.Valid() && notifier.Valid()
      ensures InSync(old(fragment), old(currentPage)) ==> InSync(fragment, currentPage)
      ensures Effects(outcome, themeAtRender, expiry)
    {
      if ToLower(ev.key) == [Letter(b)] {
        outcome := Confirmed(b);
        var e := Fire(b, themeAtRender);
        expiry := Some(e);
      } else {
        outcome, expiry := Cancelled(b), None;
        Disarm(b);
      }
    }

    /** The if/else-if chain: the five bindings' branches in source order. */
    method ShortcutChain(ev: KeyEvent, themeAtRender: Theme.ThemeName)
      returns (outcome: Outcome, expiry: Option<Notifications.Expiry>)
      requires theme.Valid() && notifier.Valid()
      modifies this, theme, notifier
      ensures outcome == Chain(old(Flags()), ev)
      ensures Flags() == FlagsAfter(old(Flags()), outcome)
      ensures TimeoutRefs() == TimersAfter(old(TimeoutRefs()), outcome, now)
      ensures now == old(now) && isHelpModalOpen == old(isHelpModalOpen)
      ensures theme.Valid() && notifier.Valid()
      ensures InSync(old(fragment), old(currentPage)) ==> InSync(fragment, currentPage)
      ensures Effects(outcome, themeAtRender, expiry)
    {
      ChainUnrolled(Flags(), ev);
      var branch;
      branch, expiry := BindingBranch(ThemeToggle, ev, themeAtRender);
      if branch.None? {
        branch, expiry := BindingBranch(AboutNav, ev, themeAtRender);
      }
      if branch.None? {
        branch, expiry := BindingBranch(HeroNav, ev, themeAtRender);
      }
      if branch.None? {
        branch, expiry := BindingBranch(ExpertiseNav, ev, themeAtRender);
      }
      if branch.None? {
        branch, expiry := BindingBranch(ContactNav, ev, themeAtRender);
      }
      outcome := Or(branch, Unhandled);
    }

    /** The timeout callback of binding `b`, run if its timer is due at the current time. */
    method ExpireIfDue(b: Binding)
      modifies this
      ensures Recogniser() == Expire(old(Recogniser()), b)
      ensures currentPage == old(currentPage) && fragment == old(fragment)
      ensures isHelpModalOpen == old(isHelpModalOpen)
    {
      if Due(TimerOf(TimeoutRefs(), b), now) {
        Disarm(b);
      }
    }

    /**
     * `ms` milliseconds pass on the virtual clock; every sequence timeout
     * that falls due runs its callback, which clears the flag and nulls the ref.
     */
    method AdvanceClock(ms: nat)
      requires Valid()
      modifies this
      ensures Valid()
      ensures Recogniser() == Elapse(old(Recogniser()), ms)
      ensures currentPage == old(currentPage) && fragment == old(fragment)
      ensures isHelpModalOpen == old(isHelpModalOpen)
    {
      ElapseCoherent(Recogniser(), ms);
      now := now + ms;
      ExpireIfDue(ThemeToggle);
      ExpireIfDue(AboutNav);
      ExpireIfDue(HeroNav);
      ExpireIfDue(ExpertiseNav);
      ExpireIfDue(ContactNav);
    }
  }
}
