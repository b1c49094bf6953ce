/**
 * The install prompt of src/components/PWAInstallButton.tsx.
 *
 * Three state cells (`deferredPrompt`, `showInstallButton`, `showIOSPrompt`)
 * are changed by four events: the mount effect with its iOS heuristics, the
 * browser's `beforeinstallprompt`, a click on the install button with the
 * outcome the platform reports, and a dismissal of the iOS banner. Rendering
 * picks one of three screens by an if-chain over the flags. The retained
 * browser event is reduced to whether one is held; what the platform does
 * with `prompt()` and `userChoice` is the click's outcome parameter.
 */
module PwaInstall {

  // ---------------------------------------------------------------------
  // The user-agent heuristics

  /** `t` occurs in `s` as a contiguous piece: `/t/.test(s)` for a pattern without special characters. */
  function Contains(s: string, t: string): (b: bool)
    ensures b ==> |t| <= |s|
    ensures |t| <= |s| && s[..|t|] == t ==> b
    decreases |s|
  {
    if |t| > |s| then false
    else if s[..|t|] == t then true
    else Contains(s[1..], t)
  }

  /** `t` occurs in `s` starting at index `i`. */
  predicate OccursAt(s: string, t: string, i: int) {
    0 <= i && i + |t| <= |s| && s[i..i + |t|] == t
  }

  /** A slice of the tail of `s` is the slice of `s` one place further on. */
  lemma SliceOfTail(s: string, a: int, b: int)
    requires 0 <= a <= b < |s|
    ensures s[1..][a..b] == s[a + 1..b + 1]
  {
    forall k | 0 <= k < b - a ensures s[1..][a..b][k] == s[a + 1..b + 1][k] {
      assert s[1..][a..b][k] == s[1..][a + k] == s[a + 1 + k];
    }
  }

  /** `Contains` agrees with the definition by an index where `t` starts. */
  lemma {:induction false} ContainsIff(s: string, t: string)
    ensures Contains(s, t) <==> exists i :: OccursAt(s, t, i)
    decreases |s|
  {
    if |t| > |s| {
    } else if s[..|t|] == t {
      assert OccursAt(s, t, 0);
    } else {
      ContainsIff(s[1..], t);
      if Contains(s[1..], t) {
        var i :| OccursAt(s[1..], t, i);
        SliceOfTail(s, i, i + |t|);
        assert OccursAt(s, t, i + 1);
      } else {
        forall i | OccursAt(s, t, i) ensures false {
          if i > 0 {
            SliceOfTail(s, i - 1, i - 1 + |t|);
            assert OccursAt(s[1..], t, i - 1);
          }
        }
      }
    }
  }

  /** `/iPad|iPhone|iPod/.test(navigator.userAgent)`. */
  predicate IsIOS(ua: string)
    ensures IsIOS(ua) <==>
              (exists i :: OccursAt(ua, "iPad", i)) || (exists i :: OccursAt(ua, "iPhone", i)) ||
              (exists i :: OccursAt(ua, "iPod", i))
  {
    ContainsIff(ua, "iPad");
    ContainsIff(ua, "iPhone");
    ContainsIff(ua, "iPod");
    Contains(ua, "iPad") || Contains(ua, "iPhone") || Contains(ua, "iPod")
  }

  /** `/Safari/.test(ua) && !/Chrome/.test(ua)`. */
  predicate IsSafari(ua: string)
    ensures IsSafari(ua) <==> (exists i :: OccursAt(ua, "Safari", i)) && !(exists i :: OccursAt(ua, "Chrome", i))
  {
    ContainsIff(ua, "Safari");
    ContainsIff(ua, "Chrome");
    Contains(ua, "Safari") && !Contains(ua, "Chrome")
  }

  // ---------------------------------------------------------------------
  // The state machine

  /** The three state cells; `deferred` says whether `deferredPrompt` holds an event. */
  datatype InstallState = InstallState(deferred: bool, showInstallButton: bool, showIOSPrompt: bool)

  /** What the platform's prompt reports, or that `prompt()` or `userChoice` threw. */
  datatype Outcome = Accepted | Dismissed | Threw

  /**
   * The first render and the mount effect: the banner is offered when the
   * user agent looks like iOS Safari and the page is not already installed.
   */
  function Mount(ua: string, standalone: bool): (st: InstallState)
    ensures !st.deferred && !st.showInstallButton
    ensures st.showIOSPrompt <==> IsIOS(ua) && IsSafari(ua) && !standalone
  {
    InstallState(false, false, IsIOS(ua) && IsSafari(ua) && !standalone)
  }

  /** `handleBeforeInstallPrompt`: keep the event and show the button. */
  function BeforeInstallPrompt(st: InstallState): (r: InstallState)
    ensures r.deferred && r.showInstallButton
    ensures r.showIOSPrompt == st.showIOSPrompt
  {
    st.(deferred := true, showInstallButton := true)
  }

  /** `handleInstallClick`, with the outcome of prompting. */
  function InstallClick(st: InstallState, o: Outcome): (r: InstallState)
    // no retained event: nothing happens
    ensures !st.deferred ==> r == st
    // accepted: the button goes and the event is spent
    ensures st.deferred && o == Accepted ==> !r.deferred && !r.showInstallButton
    // dismissed: the event is spent, the button stays
    ensures st.deferred && o == Dismissed ==> !r.deferred && r.showInstallButton == st.showInstallButton
    // prompting threw: the clear at the end of the `try` is skipped, nothing changes
    ensures o == Threw ==> r == st
    // the banner flag is never touched
    ensures r.showIOSPrompt == st.showIOSPrompt
  {
    if !st.deferred then st
    else match o
      case Accepted => st.(showInstallButton := false, deferred := false)
      case Dismissed => st.(deferred := false)
      case Threw => st
  }

  /** `dismissIOSPrompt`. */
  function Dismiss(st: InstallState): (r: InstallState)
    ensures !r.showIOSPrompt
    ensures r.deferred == st.deferred && r.showInstallButton == st.showInstallButton
  {
    st.(showIOSPrompt := false)
  }

  /** The three things the component can render. */
  datatype Screen = IOSBanner | InstallButton | Nothing

  /** The render if-chain: the banner is tested first, then the button. */
  function Render(st: InstallState): (v: Screen)
    ensures v == IOSBanner <==> st.showIOSPrompt
    ensures v == InstallButton <==> !st.showIOSPrompt && st.showInstallButton
    ensures v == Nothing <==> !st.showIOSPrompt && !st.showInstallButton
  {
    if st.showIOSPrompt then IOSBanner
    else if !st.showInstallButton then Nothing
    else InstallButton
  }

  /** Events after mount. */
  datatype Event = BeforeInstall | Click(outcome: Outcome) | DismissBanner

  function Step(st: InstallState, e: Event): InstallState {
    match e
    case BeforeInstall => BeforeInstallPrompt(st)
    case Click(o) => InstallClick(st, o)
    case DismissBanner => Dismiss(st)
  }

  function Run(st: InstallState, evs: seq<Event>): InstallState
    decreases |evs|
  {
    if evs == [] then st else Run(Step(st, evs[0]), evs[1..])
  }

  /** A retained event always comes with a visible button (unless the banner covers it). */
  predicate Inv(st: InstallState) {
    st.deferred ==> st.showInstallButton
  }

  lemma {:induction false} RunInv(st: InstallState, evs: seq<Event>)
    requires Inv(st)
    ensures Inv(Run(st, evs))
    decreases |evs|
  {
    if evs != [] {
      RunInv(Step(st, evs[0]), evs[1..]);
    }
  }

  /** Is the banner still up after these events? Exactly when it was up and nobody dismissed it. */
  lemma {:induction false} BannerAfterRun(st: InstallState, evs: seq<Event>)
    ensures Run(st, evs).showIOSPrompt <==> st.showIOSPrompt && forall k :: 0 <= k < |evs| ==> evs[k] != DismissBanner
    decreases |evs|
  {
    if evs != [] {
      BannerAfterRun(Step(st, evs[0]), evs[1..]);
      assert forall k :: 1 <= k < |evs| ==> evs[k] == evs[1..][k - 1];
    }
  }

  /** Without the iOS Safari heuristics at mount the banner never appears, whatever follows. */
  lemma NoBannerOffIOSSafari(ua: string, standalone: bool, evs: seq<Event>)
    requires !(IsIOS(ua) && IsSafari(ua) && !standalone)
    ensures Render(Run(Mount(ua, standalone), evs)) != IOSBanner
  {
    BannerAfterRun(Mount(ua, standalone), evs);
  }

  /**
   * With the heuristics at mount the banner is shown until it is dismissed,
   * even when the browser offers a native prompt meanwhile: the banner wins.
   */
  lemma BannerUntilDismissed(ua: string, standalone: bool, evs: seq<Event>)
    requires IsIOS(ua) && IsSafari(ua) && !standalone
    requires forall k :: 0 <= k < |evs| ==> evs[k] != DismissBanner
    ensures Render(Run(Mount(ua, standalone), evs)) == IOSBanner
  {
    BannerAfterRun(Mount(ua, standalone), evs);
  }

  /** Once dismissed, the banner stays dismissed. */
  lemma DismissedStaysDismissed(st: InstallState, evs: seq<Event>)
    ensures Render(Run(Dismiss(st), evs)) != IOSBanner
  {
    BannerAfterRun(Dismiss(st), evs);
  }

  /** An accepted prompt is single-use: the button is gone and a further click, whatever its outcome, changes nothing. */
  lemma AcceptedIsFinal(st: InstallState, o: Outcome)
    requires st.deferred
    ensures var r := InstallClick(st, Accepted);
            && Render(r) != InstallButton
            && InstallClick(r, o) == r
  {
  }

  /** A dismissed prompt leaves the button showing, but clicking it again does nothing until the browser offers a new event. */
  lemma DismissedLeavesInertButton(st: InstallState, o: Outcome)
    requires st.deferred && st.showInstallButton && !st.showIOSPrompt
    ensures var r := InstallClick(st, Dismissed);
            && Render(r) == InstallButton
            && InstallClick(r, o) == r
  {
  }

  /** After a throw the event is still held, so a later click can still be accepted. */
  lemma ThrowKeepsOffer(st: InstallState)
    requires st.deferred
    ensures InstallClick(InstallClick(st, Threw), Accepted) == InstallClick(st, Accepted)
    ensures InstallClick(InstallClick(st, Threw), Accepted).showInstallButton == false
  {
  }

  // ---------------------------------------------------------------------
  // The component, as state updated in place

  class InstallPrompt {
    var deferred: bool
    var showInstallButton: bool
    var showIOSPrompt: bool

    function State(): InstallState
      reads this
    {
      InstallState(deferred, showInstallButton, showIOSPrompt)
    }

    predicate Valid()
      reads this
    {
      Inv(State())
    }

    /** First render (all three cells false) and the mount effect. */
    constructor (ua: string, standalone: bool)
      ensures Valid() && State() == Mount(ua, standalone)
    {
      deferred := false;
      showInstallButton := false;
      showIOSPrompt := false;
      new;
      var isIOS := IsIOS(ua);
      var isSafari := IsSafari(ua);
      if isIOS && isSafari && !standalone {
        showIOSPrompt := true;
      }
    }

    method HandleBeforeInstallPrompt()
      requires Valid()
      modifies this
      ensures Valid() && State() == BeforeInstallPrompt(old(State()))
    {
      deferred := true;
      showInstallButton := true;
    }

    method HandleInstallClick(o: Outcome)
      requires Valid()
      modifies this
      ensures Valid() && State() == InstallClick(old(State()), o)
    {
      if deferred {
        // the `try` block runs to its end unless prompting throws
        if o != Threw {
          if o == Accepted {
            showInstallButton := false;
          }
          deferred := false;
        }
      }
    }

    method DismissIOSPrompt()
      requires Valid()
      modifies this
      ensures Valid() && State() == Dismiss(old(State()))
    {
      showIOSPrompt := false;
    }

    /** The screen the component renders now. */
    method View() returns (v: Screen)
      ensures v == Render(State())
    {
      if showIOSPrompt {
        return IOSBanner;
      }
      if !showInstallButton {
        return Nothing;
      }
      return InstallButton;
    }
  }
}
