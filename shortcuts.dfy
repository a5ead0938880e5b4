/**
 * The two-stroke keyboard shortcut recogniser, as pure functions of the
 * five armed flags, their pending timeouts and a virtual clock. Shift and a
 * binding's letter arm the binding; the next key confirms it (the same
 * letter, in either case) or cancels it; the armed state expires 750 ms
 * after arming.
 */
module Shortcuts {

  import opened Wrappers
  import opened Text
  import Router
  import Theme

  /** How long a binding stays armed without a second key. */
  const ArmTimeoutMs: int := 750
  /** The duration of the notification a confirmed shortcut shows. */
  const ConfirmDurationMs: int := 2000

  /** The parts of a `keydown` event the handler reads. */
  datatype KeyEvent = KeyEvent(key: string, shiftKey: bool, tagName: string, isContentEditable: bool)

  /** The event comes from a text input, a text area or an editable element. */
  predicate InEditableTarget(ev: KeyEvent) {
    ev.tagName == "INPUT" || ev.tagName == "TEXTAREA" || ev.isContentEditable
  }

  /** The five two-stroke shortcuts, in the order the handler tests them. */
  datatype Binding = ThemeToggle | AboutNav | HeroNav | ExpertiseNav | ContactNav

  /** The letter of a binding: Shift and this letter arm it, this letter again confirms it. */
  function Letter(b: Binding): char {
    match b
    case ThemeToggle => 't'
    case AboutNav => 'a'
    case HeroNav => 'h'
    case ExpertiseNav => 'e'
    case ContactNav => 'c'
  }

  /** `toLowerCase` of the key is the binding's letter. */
  predicate KeyIs(key: string, b: Binding) {
    ToLower(key) == [Letter(b)]
  }

  /** The comparison is case-insensitive: the letter or its capital matches, nothing else. */
  lemma KeyIsLetterInEitherCase(key: string, b: Binding)
    ensures KeyIs(key, b) <==> key == [Letter(b)] || key == [(Letter(b) as int - 32) as char]
  {
    ToLowerIsLetter(key, Letter(b));
  }

  /** The five `shiftAndFirst…Pressed` flags. */
  datatype ArmFlags = ArmFlags(t: bool, a: bool, h: bool, e: bool, c: bool)

  const NoneArmed: ArmFlags := ArmFlags(false, false, false, false, false)

  function IsArmed(f: ArmFlags, b: Binding): bool {
    match b
    case ThemeToggle => f.t
    case AboutNav => f.a
    case HeroNav => f.h
    case ExpertiseNav => f.e
    case ContactNav => f.c
  }

  function SetArmed(f: ArmFlags, b: Binding, v: bool): (g: ArmFlags)
    ensures IsArmed(g, b) == v
    ensures forall b' :: b' != b ==> IsArmed(g, b') == IsArmed(f, b')
  {
    match b
    case ThemeToggle => f.(t := v)
    case AboutNav => f.(a := v)
    case HeroNav => f.(h := v)
    case ExpertiseNav => f.(e := v)
    case ContactNav => f.(c := v)
  }

  /** Flags that agree on every binding are equal. */
  lemma FlagsExt(f: ArmFlags, g: ArmFlags)
    requires forall b :: IsArmed(f, b) == IsArmed(g, b)
    ensures f == g
  {
    assert IsArmed(f, ThemeToggle) == IsArmed(g, ThemeToggle);
    assert IsArmed(f, AboutNav) == IsArmed(g, AboutNav);
    assert IsArmed(f, HeroNav) == IsArmed(g, HeroNav);
    assert IsArmed(f, ExpertiseNav) == IsArmed(g, ExpertiseNav);
    assert IsArmed(f, ContactNav) == IsArmed(g, ContactNav);
  }

  ghost predicate AtMostOneArmed(f: ArmFlags) {
    forall b1, b2 :: IsArmed(f, b1) && IsArmed(f, b2) ==> b1 == b2
  }

  /** What one key press does. */
  datatype Outcome =
    | EditableTarget(closesHelp: bool)  // typing in a field: shortcuts are off
    | HelpClosed                        // Escape with the help dialog open
    | HelpToggled                       // Shift+?
    | Confirmed(binding: Binding)       // the armed binding fires
    | Cancelled(binding: Binding)       // the armed binding is dropped
    | Arming(binding: Binding)          // a binding is armed
    | Unhandled

  /** The checks made before the shortcut chain, or `None` when the chain runs. */
  function Preamble(helpOpen: bool, ev: KeyEvent): (r: Option<Outcome>)
    ensures r.None? <==>
      !InEditableTarget(ev) && !(ev.key == "Escape" && helpOpen) && !(ev.shiftKey && ev.key == "?")
    ensures r.Some? ==> !IsShortcutOutcome(r.value)
  {
    if InEditableTarget(ev) then Some(EditableTarget(ev.key == "Escape" && helpOpen))
    else if ev.key == "Escape" && helpOpen then Some(HelpClosed)
    else if ev.shiftKey && ev.key == "?" then Some(HelpToggled)
    else None
  }

  /** The key after an armed binding confirms it or cancels it. */
  function Resolve(b: Binding, key: string): (o: Outcome)
    ensures (o.Confirmed? || o.Cancelled?) && o.binding == b
    ensures o.Confirmed? <==> KeyIs(key, b)
  {
    if KeyIs(key, b) then Confirmed(b) else Cancelled(b)
  }

  predicate ArmsWith(ev: KeyEvent, b: Binding) {
    ev.shiftKey && KeyIs(ev.key, b)
  }

  /** Every flag other than `b`'s is clear. */
  predicate OthersClear(f: ArmFlags, b: Binding) {
    SetArmed(f, b, false) == NoneArmed
  }

  /**
   * The two branches the chain has for binding `b`: resolve `b` when it is
   * armed; arm it on Shift and its letter when the other four flags are
   * clear; otherwise fall through to the next binding (`None`).
   */
  function Branch(f: ArmFlags, b: Binding, ev: KeyEvent): (r: Option<Outcome>)
    ensures r.Some? ==> IsShortcutOutcome(r.value) && !r.value.Unhandled? && r.value.binding == b
    ensures IsArmed(f, b) ==> r.Some? && !r.value.Arming?
    ensures r.Some? && r.value.Arming? ==> f == NoneArmed && ev.shiftKey && KeyIs(ev.key, b)
  {
    if IsArmed(f, b) then Some(Resolve(b, ev.key))
    else if ArmsWith(ev, b) && OthersClear(f, b) then ClearIsIdle(f, b); Some(Arming(b))
    else None
  }

  /** With `b` clear and every other flag clear, nothing is armed. */
  lemma ClearIsIdle(f: ArmFlags, b: Binding)
    requires !IsArmed(f, b) && OthersClear(f, b)
    ensures f == NoneArmed
  {
    FlagsExt(f, SetArmed(f, b, false));
  }

  /** The bindings in the order the handler's if/else-if chain tests them. */
  const BindingTable: seq<Binding> := [ThemeToggle, AboutNav, HeroNav, ExpertiseNav, ContactNav]

  /** An outcome of the shortcut chain rather than of the checks before it. */
  predicate IsShortcutOutcome(o: Outcome) {
    o.Confirmed? || o.Cancelled? || o.Arming? || o.Unhandled?
  }

  /** The decision of a branch that applies, else `rest`. */
  function Or(branch: Option<Outcome>, rest: Outcome): Outcome {
    match branch
    case Some(o) => o
    case None => rest
  }

  /** The first branch of `table` that applies, or `Unhandled`. */
  function ChainFrom(f: ArmFlags, table: seq<Binding>, ev: KeyEvent): (r: Outcome)
    ensures IsShortcutOutcome(r)
    ensures r.Unhandled? <==> forall i :: 0 <= i < |table| ==> Branch(f, table[i], ev).None?
  {
    if table == [] then Unhandled
    else Or(Branch(f, table[0], ev), ChainFrom(f, table[1..], ev))
  }

  /** The handler's chain over the five bindings. */
  function Chain(f: ArmFlags, ev: KeyEvent): (r: Outcome)
    ensures IsShortcutOutcome(r)
  {
    ChainFrom(f, BindingTable, ev)
  }

  /** The chain written out as the handler's ten branches, in order. */
  lemma ChainUnrolled(f: ArmFlags, ev: KeyEvent)
    ensures Chain(f, ev) ==
      Or(Branch(f, ThemeToggle, ev), Or(Branch(f, AboutNav, ev), Or(Branch(f, HeroNav, ev),
      Or(Branch(f, ExpertiseNav, ev), Or(Branch(f, ContactNav, ev), Unhandled)))))
  {
    var t5 := BindingTable;
    var t4: seq<Binding> := [AboutNav, HeroNav, ExpertiseNav, ContactNav];
    var t3: seq<Binding> := [HeroNav, ExpertiseNav, ContactNav];
    var t2: seq<Binding> := [ExpertiseNav, ContactNav];
    var t1: seq<Binding> := [ContactNav];
    assert t5[1..] == t4 && t4[1..] == t3 && t3[1..] == t2 && t2[1..] == t1 && t1[1..] == [];
    assert ChainFrom(f, t1, ev) == Or(Branch(f, ContactNav, ev), Unhandled);
    assert ChainFrom(f, t2, ev) == Or(Branch(f, ExpertiseNav, ev), ChainFrom(f, t1, ev));
    assert ChainFrom(f, t3, ev) == Or(Branch(f, HeroNav, ev), ChainFrom(f, t2, ev));
    assert ChainFrom(f, t4, ev) == Or(Branch(f, AboutNav, ev), ChainFrom(f, t3, ev));
  }

  /** `handleKeyDown`'s decision for one key press. */
  function Dispatch(f: ArmFlags, helpOpen: bool, ev: KeyEvent): (o: Outcome)
    ensures IsShortcutOutcome(o) <==> Preamble(helpOpen, ev).None?
    ensures InEditableTarget(ev) ==> o.EditableTarget?
  {
    match Preamble(helpOpen, ev)
    case Some(o) => o
    case None => Chain(f, ev)
  }

  /** The armed flags after a key press. */
  function FlagsAfter(f: ArmFlags, o: Outcome): ArmFlags {
    match o
    case Confirmed(b) => SetArmed(f, b, false)
    case Cancelled(b) => SetArmed(f, b, false)
    case Arming(b) => SetArmed(f, b, true)
    case _ => f
  }

  /** Whether the help dialog is open after a key press. */
  function HelpAfter(helpOpen: bool, o: Outcome): bool {
    match o
    case EditableTarget(closes) => helpOpen && !closes
    case HelpClosed => false
    case HelpToggled => !helpOpen
    case _ => helpOpen
  }

  /** The page a navigation binding goes to; the theme binding navigates nowhere. */
  function Destination(b: Binding): Option<Router.PageName> {
    match b
    case ThemeToggle => None
    case AboutNav => Some(Router.About)
    case HeroNav => Some(Router.Hero)
    case ExpertiseNav => Some(Router.Expertise)
    case ContactNav => Some(Router.Contact)
  }

  /** The message of the notification a confirmed binding shows, given the theme before it. */
  function ConfirmMessage(b: Binding, themeBefore: Theme.ThemeName): string {
    match b
    case ThemeToggle => "Theme toggled to " + (if themeBefore == Theme.Light then "Dark" else "Light") + "."
    case AboutNav => "Navigated to About Page."
    case HeroNav => "Navigated to Hero Page."
    case ExpertiseNav => "Navigated to Expertise Page."
    case ContactNav => "Navigated to Contact Page."
  }

  /** The theme message names the theme the toggle switches to. */
  lemma ToggleMessageNamesNewTheme(t: Theme.ThemeName)
    ensures ConfirmMessage(ThemeToggle, t) == "Theme toggled to " + Theme.Label(Theme.Flip(t)) + "."
  {
  }

  // ---------------------------------------------------------------------
  // Properties of one key press

  /**
   * Arming requires the other four flags to be clear, so a key press keeps
   * at most one binding armed.
   */
  lemma DispatchKeepsAtMostOneArmed(f: ArmFlags, helpOpen: bool, ev: KeyEvent)
    requires AtMostOneArmed(f)
    ensures AtMostOneArmed(FlagsAfter(f, Dispatch(f, helpOpen, ev)))
  {
    var o := Dispatch(f, helpOpen, ev);
    if o.Arming? {
      ArmingOnlyWhenIdle(f, helpOpen, ev, o.binding);
      SingleArmed(o.binding);
    } else if o.Confirmed? || o.Cancelled? {
      ClearingKeepsAtMostOneArmed(f, o.binding);
    }
  }

  lemma SingleArmed(b: Binding)
    ensures AtMostOneArmed(SetArmed(NoneArmed, b, true))
  {
  }

  lemma ClearingKeepsAtMostOneArmed(f: ArmFlags, b: Binding)
    requires AtMostOneArmed(f)
    ensures AtMostOneArmed(SetArmed(f, b, false))
  {
    var g := SetArmed(f, b, false);
    forall b1, b2 | IsArmed(g, b1) && IsArmed(g, b2) ensures b1 == b2 {
      assert IsArmed(f, b1) && IsArmed(f, b2);
    }
  }

  /** A binding is armed only from the idle state, by Shift and its letter. */
  lemma ArmingOnlyWhenIdle(f: ArmFlags, helpOpen: bool, ev: KeyEvent, b: Binding)
    requires Dispatch(f, helpOpen, ev) == Arming(b)
    ensures f == NoneArmed
    ensures ev.shiftKey && KeyIs(ev.key, b) && !InEditableTarget(ev)
    ensures FlagsAfter(f, Arming(b)) == SetArmed(NoneArmed, b, true)
  {
    ChainUnrolled(f, ev);
  }

  /**
   * While a binding is armed, a key that reaches the chain disarms it: it
   * fires exactly when the key lower-cases to the binding's letter, and
   * afterwards nothing is armed. Every other key, even a bare Shift or
   * another binding's Shift+letter, only cancels.
   */
  lemma ArmedBindingResolves(f: ArmFlags, helpOpen: bool, ev: KeyEvent, b: Binding)
    requires AtMostOneArmed(f) && IsArmed(f, b)
    requires Preamble(helpOpen, ev).None?
    ensures Dispatch(f, helpOpen, ev) == (if KeyIs(ev.key, b) then Confirmed(b) else Cancelled(b))
    ensures FlagsAfter(f, Dispatch(f, helpOpen, ev)) == NoneArmed
  {
    ChainUnrolled(f, ev);
    forall b' ensures IsArmed(f, b') == IsArmed(SetArmed(NoneArmed, b, true), b') {
    }
    FlagsExt(f, SetArmed(NoneArmed, b, true));
    forall b' ensures IsArmed(SetArmed(f, b, false), b') == IsArmed(NoneArmed, b') {
    }
    FlagsExt(SetArmed(f, b, false), NoneArmed);
  }

  /** Shift+T while About is armed falls into About's branch: it cancels About and arms nothing. */
  lemma ShiftTWhileAboutArmedCancelsAbout(helpOpen: bool, tagName: string)
    requires tagName != "INPUT" && tagName != "TEXTAREA"
    ensures Dispatch(NoneArmed.(a := true), helpOpen, KeyEvent("T", true, tagName, false)) == Cancelled(AboutNav)
    ensures FlagsAfter(NoneArmed.(a := true), Cancelled(AboutNav)) == NoneArmed
  {
    var ev := KeyEvent("T", true, tagName, false);
    assert ev.key != "Escape" && ev.key != "?";
    assert ToLower("T") == "t";
    ChainUnrolled(NoneArmed.(a := true), ev);
  }

  /**
   * In an input, a text area or an editable element no binding arms or
   * fires, the flags are untouched, and only Escape closes an open help dialog.
   */
  lemma EditableTargetIgnoresShortcuts(f: ArmFlags, helpOpen: bool, ev: KeyEvent)
    requires InEditableTarget(ev)
    ensures Dispatch(f, helpOpen, ev) == EditableTarget(ev.key == "Escape" && helpOpen)
    ensures FlagsAfter(f, Dispatch(f, helpOpen, ev)) == f
    ensures HelpAfter(helpOpen, Dispatch(f, helpOpen, ev)) == (helpOpen && ev.key != "Escape")
  {
  }

  /** Escape with the help dialog open closes it, and Shift+? toggles it; neither touches the flags. */
  lemma HelpKeysLeaveFlags(f: ArmFlags, helpOpen: bool, ev: KeyEvent)
    requires !InEditableTarget(ev)
    requires (ev.key == "Escape" && helpOpen) || (ev.shiftKey && ev.key == "?")
    ensures FlagsAfter(f, Dispatch(f, helpOpen, ev)) == f
    ensures HelpAfter(helpOpen, Dispatch(f, helpOpen, ev)) == !helpOpen
  {
  }

  /** A binding fires only when it was armed and the key is its letter in either case. */
  lemma ConfirmedOnlyByOwnLetter(f: ArmFlags, helpOpen: bool, ev: KeyEvent, b: Binding)
    requires Dispatch(f, helpOpen, ev) == Confirmed(b)
    ensures IsArmed(f, b) && !InEditableTarget(ev)
    ensures ev.key == [Letter(b)] || ev.key == [(Letter(b) as int - 32) as char]
  {
    ChainUnrolled(f, ev);
    KeyIsLetterInEitherCase(ev.key, b);
  }

  // ---------------------------------------------------------------------
  // The same decision as one data-driven engine over a binding table

  /** The first binding of `table` whose letter the key lower-cases to. */
  function FindBinding(table: seq<Binding>, key: string): (r: Option<Binding>)
    ensures r.Some? ==> r.value in table && KeyIs(key, r.value)
    ensures r.None? ==> forall b :: b in table ==> !KeyIs(key, b)
  {
    if table == [] then None
    else if KeyIs(key, table[0]) then Some(table[0])
    else FindBinding(table[1..], key)
  }

  /** The first armed binding in table order. */
  function ArmedBinding(f: ArmFlags): (r: Option<Binding>)
    ensures r.Some? ==> IsArmed(f, r.value)
    ensures r.None? <==> f == NoneArmed
  {
    if f.t then Some(ThemeToggle)
    else if f.a then Some(AboutNav)
    else if f.h then Some(HeroNav)
    else if f.e then Some(ExpertiseNav)
    else if f.c then Some(ContactNav)
    else None
  }

  /** One engine with a single exclusion guard: resolve the armed binding, or arm the key's binding. */
  function EngineChain(armed: Option<Binding>, ev: KeyEvent): Outcome {
    match armed
    case Some(b) => Resolve(b, ev.key)
    case None =>
      var found := FindBinding(BindingTable, ev.key);
      if ev.shiftKey && found.Some? then Arming(found.value) else Unhandled
  }

  /** Distinct bindings have distinct letters, so a key matches at most one of them. */
  lemma KeyMatchesOneBinding(key: string, b1: Binding, b2: Binding)
    requires KeyIs(key, b1) && KeyIs(key, b2)
    ensures b1 == b2
  {
    assert [Letter(b1)] == [Letter(b2)];
    assert Letter(b1) == [Letter(b1)][0];
  }

  /**
   * Under the at-most-one-armed invariant, the five hand-written copies of
   * the arming logic decide exactly as the single table-driven engine.
   */
  lemma ChainIsDataDriven(f: ArmFlags, ev: KeyEvent)
    requires AtMostOneArmed(f)
    ensures Chain(f, ev) == EngineChain(ArmedBinding(f), ev)
  {
    ChainUnrolled(f, ev);
    if f == NoneArmed {
      var found := FindBinding(BindingTable, ev.key);
      if found.Some? {
        forall b | KeyIs(ev.key, b) ensures b == found.value {
          KeyMatchesOneBinding(ev.key, b, found.value);
        }
      } else {
        assert forall b :: !KeyIs(ev.key, b) by {
          forall b ensures !KeyIs(ev.key, b) {
            match b
            case ThemeToggle => assert BindingTable[0] == b;
            case AboutNav => assert BindingTable[1] == b;
            case HeroNav => assert BindingTable[2] == b;
            case ExpertiseNav => assert BindingTable[3] == b;
            case ContactNav => assert BindingTable[4] == b;
          }
        }
      }
    }
  }

  // ---------------------------------------------------------------------
  // Timeouts on a virtual clock

  /** The five timeout refs: the deadline of the live timer, or `None`. */
  datatype Timers = Timers(t: Option<int>, a: Option<int>, h: Option<int>, e: Option<int>, c: Option<int>)

  const NoTimers: Timers := Timers(None, None, None, None, None)

  function TimerOf(ts: Timers, b: Binding): Option<int> {
    match b
    case ThemeToggle => ts.t
    case AboutNav => ts.a
    case HeroNav => ts.h
    case ExpertiseNav => ts.e
    case ContactNav => ts.c
  }

  function SetTimer(ts: Timers, b: Binding, v: Option<int>): (us: Timers)
    ensures TimerOf(us, b) == v
    ensures forall b' :: b' != b ==> TimerOf(us, b') == TimerOf(ts, b')
  {
    match b
    case ThemeToggle => ts.(t := v)
    case AboutNav => ts.(a := v)
    case HeroNav => ts.(h := v)
    case ExpertiseNav => ts.(e := v)
    case ContactNav => ts.(c := v)
  }

  /** Timers that agree on every binding are equal. */
  lemma TimersExt(ts: Timers, us: Timers)
    requires forall b :: TimerOf(ts, b) == TimerOf(us, b)
    ensures ts == us
  {
    assert TimerOf(ts, ThemeToggle) == TimerOf(us, ThemeToggle);
    assert TimerOf(ts, AboutNav) == TimerOf(us, AboutNav);
    assert TimerOf(ts, HeroNav) == TimerOf(us, HeroNav);
    assert TimerOf(ts, ExpertiseNav) == TimerOf(us, ExpertiseNav);
    assert TimerOf(ts, ContactNav) == TimerOf(us, ContactNav);
  }

  /** The recogniser's whole state: flags, live timers and the clock. */
  datatype Engine = Engine(flags: ArmFlags, timers: Timers, now: int)

  /**
   * The recogniser's invariant: at most one binding is armed, a binding
   * has a live timer exactly when it is armed, and that timer is due
   * within the next 750 ms.
   */
  ghost predicate Coherent(st: Engine) {
    && AtMostOneArmed(st.flags)
    && (forall b :: TimerOf(st.timers, b).Some? <==> IsArmed(st.flags, b))
    && (forall b :: TimerOf(st.timers, b).Some? ==>
          st.now < TimerOf(st.timers, b).value <= st.now + ArmTimeoutMs)
  }

  const Idle: Engine := Engine(NoneArmed, NoTimers, 0)

  /** Arming schedules a timer 750 ms ahead; confirming or cancelling clears it. */
  function TimersAfter(ts: Timers, o: Outcome, now: int): Timers {
    match o
    case Arming(b) => SetTimer(ts, b, Some(now + ArmTimeoutMs))
    case Confirmed(b) => SetTimer(ts, b, None)
    case Cancelled(b) => SetTimer(ts, b, None)
    case _ => ts
  }

  /** One key press, with the timers surviving the re-render that follows it. */
  function KeyStep(st: Engine, helpOpen: bool, ev: KeyEvent): (st': Engine)
    ensures st'.now == st.now
    ensures forall b :: IsArmed(st'.flags, b) && !IsArmed(st.flags, b) ==>
      TimerOf(st'.timers, b) == Some(st.now + ArmTimeoutMs)
    ensures forall b :: !IsArmed(st'.flags, b) && IsArmed(st.flags, b) ==> TimerOf(st'.timers, b) == None
  {
    var o := Dispatch(st.flags, helpOpen, ev);
    Engine(FlagsAfter(st.flags, o), TimersAfter(st.timers, o, st.now), st.now)
  }

  predicate Due(timer: Option<int>, now: int) {
    timer.Some? && timer.value <= now
  }

  /** Binding `b`'s timeout callback, if its timer is due: it clears the flag and nulls the ref. */
  function Expire(st: Engine, b: Binding): Engine {
    if Due(TimerOf(st.timers, b), st.now) then
      Engine(SetArmed(st.flags, b, false), SetTimer(st.timers, b, None), st.now)
    else st
  }

  /** `ms` milliseconds pass, then every timer that has fallen due runs its callback. */
  function Elapse(st: Engine, ms: nat): Engine {
    var later := st.(now := st.now + ms);
    Expire(Expire(Expire(Expire(Expire(later, ThemeToggle), AboutNav), HeroNav), ExpertiseNav), ContactNav)
  }

  /** One callback touches only its own binding's flag and ref. */
  lemma ExpireAt(st: Engine, b: Binding, x: Binding)
    ensures Expire(st, b).now == st.now
    ensures IsArmed(Expire(st, b).flags, x) ==
      (IsArmed(st.flags, x) && !(x == b && Due(TimerOf(st.timers, x), st.now)))
    ensures TimerOf(Expire(st, b).timers, x) ==
      (if x == b && Due(TimerOf(st.timers, x), st.now) then None else TimerOf(st.timers, x))
  {
  }

  /** After `ms` milliseconds a binding is armed, and has a timer, exactly when its timer was not due. */
  lemma ElapseAt(st: Engine, ms: nat, b: Binding)
    ensures Elapse(st, ms).now == st.now + ms
    ensures IsArmed(Elapse(st, ms).flags, b) == (IsArmed(st.flags, b) && !Due(TimerOf(st.timers, b), st.now + ms))
    ensures TimerOf(Elapse(st, ms).timers, b) ==
      (if Due(TimerOf(st.timers, b), st.now + ms) then None else TimerOf(st.timers, b))
  {
    var s0 := st.(now := st.now + ms);
    var s1 := Expire(s0, ThemeToggle);
    var s2 := Expire(s1, AboutNav);
    var s3 := Expire(s2, HeroNav);
    var s4 := Expire(s3, ExpertiseNav);
    ExpireAt(s0, ThemeToggle, b);
    ExpireAt(s1, AboutNav, b);
    ExpireAt(s2, HeroNav, b);
    ExpireAt(s3, ExpertiseNav, b);
    ExpireAt(s4, ContactNav, b);
  }

  lemma IdleIsCoherent()
    ensures Coherent(Idle)
  {
  }

  /** A key press keeps the recogniser coherent. */
  lemma KeyStepCoherent(st: Engine, helpOpen: bool, ev: KeyEvent)
    requires Coherent(st)
    ensures Coherent(KeyStep(st, helpOpen, ev))
  {
    DispatchKeepsAtMostOneArmed(st.flags, helpOpen, ev);
    var o := Dispatch(st.flags, helpOpen, ev);
    if o.Arming? {
      ArmingOnlyWhenIdle(st.flags, helpOpen, ev, o.binding);
    }
  }

  /** The passing of time keeps the recogniser coherent. */
  lemma ElapseCoherent(st: Engine, ms: nat)
    requires Coherent(st)
    ensures Coherent(Elapse(st, ms))
  {
    var st' := Elapse(st, ms);
    forall b ensures TimerOf(st'.timers, b).Some? <==> IsArmed(st'.flags, b) {
      ElapseAt(st, ms, b);
    }
    forall b | TimerOf(st'.timers, b).Some?
      ensures st'.now < TimerOf(st'.timers, b).value <= st'.now + ArmTimeoutMs
    {
      ElapseAt(st, ms, b);
    }
    forall b1, b2 | IsArmed(st'.flags, b1) && IsArmed(st'.flags, b2) ensures b1 == b2 {
      ElapseAt(st, ms, b1);
      ElapseAt(st, ms, b2);
    }
  }

  /** After 750 ms without a key, nothing is armed and no timer is left. */
  lemma TimeoutDisarms(st: Engine, ms: nat)
    requires Coherent(st) && ms >= ArmTimeoutMs
    ensures Elapse(st, ms).flags == NoneArmed
    ensures Elapse(st, ms).timers == NoTimers
  {
    forall b ensures IsArmed(Elapse(st, ms).flags, b) == IsArmed(NoneArmed, b)
      && TimerOf(Elapse(st, ms).timers, b) == TimerOf(NoTimers, b)
    {
      ElapseAt(st, ms, b);
    }
    FlagsExt(Elapse(st, ms).flags, NoneArmed);
    TimersExt(Elapse(st, ms).timers, NoTimers);
  }

  /** A freshly armed binding is still armed as long as less than 750 ms have passed. */
  lemma ArmedUntilTimeout(st: Engine, helpOpen: bool, ev: KeyEvent, b: Binding, ms: nat)
    requires Coherent(st) && Dispatch(st.flags, helpOpen, ev) == Arming(b)
    requires ms < ArmTimeoutMs
    ensures IsArmed(Elapse(KeyStep(st, helpOpen, ev), ms).flags, b)
  {
    ElapseAt(KeyStep(st, helpOpen, ev), ms, b);
  }

  // ---------------------------------------------------------------------
  // As written: the listener effect's cleanup clears every timer

  /**
   * The timers after a key press as the source runs it: arming changes a
   * flag that `handleKeyDown` depends on, so the listener effect's cleanup
   * runs on the next render and clears all five timers, including the one
   * just scheduled.
   */
  function KeyStepAsWritten(st: Engine, helpOpen: bool, ev: KeyEvent): (st': Engine)
    ensures st'.flags == KeyStep(st, helpOpen, ev).flags && st'.now == st.now
    ensures st'.timers == NoTimers
  {
    var o := Dispatch(st.flags, helpOpen, ev);
    Engine(FlagsAfter(st.flags, o), NoTimers, st.now)
  }

  /** As written, an armed binding never expires, however long the wait. */
  lemma ArmedNeverExpiresAsWritten(st: Engine, helpOpen: bool, ev: KeyEvent, b: Binding, ms: nat)
    requires Dispatch(st.flags, helpOpen, ev) == Arming(b)
    ensures IsArmed(Elapse(KeyStepAsWritten(st, helpOpen, ev), ms).flags, b)
  {
    ElapseAt(KeyStepAsWritten(st, helpOpen, ev), ms, b);
  }

  const ShiftT: KeyEvent := KeyEvent("T", true, "BODY", false)
  const PlainT: KeyEvent := KeyEvent("t", false, "BODY", false)

  /**
   * Shift+T, a wait of one second, then `t`: as written the theme still
   * toggles; with the timer kept alive the late `t` does nothing.
   */
  lemma LateConfirmFiresOnlyAsWritten()
    ensures Dispatch(Elapse(KeyStepAsWritten(Idle, false, ShiftT), 1000).flags, false, PlainT)
            == Confirmed(ThemeToggle)
    ensures Dispatch(Elapse(KeyStep(Idle, false, ShiftT), 1000).flags, false, PlainT) == Unhandled
  {
    assert ToLower("T") == "t" && ToLower("t") == "t";
    assert Dispatch(NoneArmed, false, ShiftT) == Arming(ThemeToggle);
    ArmedNeverExpiresAsWritten(Idle, false, ShiftT, ThemeToggle, 1000);
    IdleIsCoherent();
    KeyStepCoherent(Idle, false, ShiftT);
    TimeoutDisarms(KeyStep(Idle, false, ShiftT), 1000);
  }
}
