/**
 * The main content area: either the welcome screen (no showcase) or a showcase entity for the
 * component last picked in the sidebar.  Picking a component creates the showcase on first use
 * and afterwards re-targets the same showcase; going back to the welcome screen drops it.
 */
module MainPageView {
  import opened Wrappers
  import opened Registry
  import opened Showcase
  import Toolkit

  const WelcomeTitle: string := "Welcome to GPUI Component Demo"
  const WelcomeHint: string := "Select a component from the sidebar to view its demo"

  datatype PageState = Empty | Present(showcase: ShowcaseState)

  /** What `render` puts on screen. */
  datatype Screen = WelcomeScreen(title: string, hint: string) | ShowcaseScreen(showcase: ShowcaseState)

  /** `MainPage::new`. */
  function NewPage(): PageState {
    Empty
  }

  /** `show_component`; `next` is the toolkit's next entity, used when an existing showcase re-creates its view. */
  function ShowComponentState(p: PageState, c: Component, next: nat): PageState {
    match p
    case Present(s) => Present(SetComponentState(s, c, next))
    case Empty => Present(NewShowcase(c))
  }

  /** The entities `show_component` allocates for demo views. */
  function ShowAllocates(p: PageState): nat {
    if p.Present? then 1 else 0
  }

  /** `show_welcome`. */
  function ShowWelcomeState(p: PageState): PageState {
    Empty
  }

  /** `render`: the welcome texts when there is no showcase, the showcase otherwise. */
  function RenderPage(p: PageState): Screen {
    match p
    case Empty => WelcomeScreen(WelcomeTitle, WelcomeHint)
    case Present(s) => ShowcaseScreen(s)
  }

  predicate PageInvariant(p: PageState, next: nat) {
    p.Present? ==> Invariant(p.showcase, next)
  }

  /** A new page has no showcase and shows the welcome screen. */
  lemma NewPageShowsWelcome(next: nat)
    ensures NewPage() == Empty && PageInvariant(NewPage(), next)
    ensures RenderPage(NewPage()) == WelcomeScreen("Welcome to GPUI Component Demo", "Select a component from the sidebar to view its demo")
  {
  }

  /** The welcome screen is shown exactly when there is no showcase. */
  lemma RenderShowsWelcomeIffEmpty(p: PageState)
    ensures RenderPage(p).WelcomeScreen? <==> p == Empty
    ensures p.Present? ==> RenderPage(p) == ShowcaseScreen(p.showcase)
  {
  }

  /** From the welcome screen, picking `c` creates a showcase for `c` whose view is not built yet. */
  lemma ShowFromEmpty(c: Component, next: nat)
    ensures var p := ShowComponentState(Empty, c, next);
      p.Present? && p.showcase.component == c && p.showcase.currentView.None? && ShowAllocates(Empty) == 0
  {
  }

  /** With a showcase present, picking `c` re-targets it, which builds a fresh view of `c` at once. */
  lemma ShowWhenPresent(s: ShowcaseState, c: Component, next: nat)
    requires Invariant(s, next)
    ensures var p := ShowComponentState(Present(s), c, next);
      && p == Present(SetComponentState(s, c, next))
      && p.showcase.currentView.Some? && p.showcase.currentView.value.id == next
      && p.showcase.currentView.value.kind == c
      && ShowAllocates(Present(s)) == 1
  {
    SetComponentFresh(s, c, next);
  }

  /** From either state, afterwards a showcase for `c` is present, and the invariant holds. */
  lemma ShowComponentSelects(p: PageState, c: Component, next: nat)
    requires PageInvariant(p, next)
    ensures var q := ShowComponentState(p, c, next);
      q.Present? && q.showcase.component == c && PageInvariant(q, next + ShowAllocates(p))
  {
    if p.Present? {
      SetComponentFresh(p.showcase, c, next);
    }
  }

  /** Going back to the welcome screen always empties the page, and doing it twice is doing it once. */
  lemma ShowWelcomeIdempotent(p: PageState, next: nat)
    ensures ShowWelcomeState(p) == Empty && PageInvariant(ShowWelcomeState(p), next)
    ensures ShowWelcomeState(ShowWelcomeState(p)) == ShowWelcomeState(p)
  {
  }

  /** After the welcome screen, the next pick builds a new showcase: no cached view survives. */
  lemma WelcomeDropsCachedView(p: PageState, c: Component, next: nat)
    ensures ShowComponentState(ShowWelcomeState(p), c, next) == Present(NewShowcase(c))
    ensures ShowComponentState(ShowWelcomeState(p), c, next).showcase.currentView.None?
  {
  }

  /**
   * Picking the kind already shown still replaces its demo view: after a render has cached a
   * view for `c`, picking `c` again caches a different entity of the same kind.
   */
  lemma ReselectRebuildsView(s: ShowcaseState, c: Component, next: nat)
    requires Invariant(s, next) && s.component == c
    ensures var r := RenderState(s, next);
      var n := next + RenderAllocates(r);
      var q := ShowComponentState(Present(r.state), c, n);
      && q.showcase.component == c && q.showcase.currentView.Some?
      && PageInvariant(q, n + 1)
      && q.showcase.currentView.value != r.view
  {
    var r := RenderState(s, next);
    var n := next + RenderAllocates(r);
    RenderPreservesInvariant(s, next);
    assert r.state.currentView == Some(r.view);
    SetComponentFresh(r.state, c, n);
  }

  /** The page entity; `show_component` and `show_welcome` replace or clear its showcase field. */
  class MainPage {
    var showcase: ComponentShowcase?

    function State(): PageState
      reads this, showcase
    {
      if showcase == null then Empty else Present(showcase.State())
    }

    constructor ()
      ensures State() == NewPage() && showcase == null
    {
      showcase := null;
    }

    /** `show_component`. */
    method ShowComponent(c: Component, ids: Toolkit.EntityIds)
      modifies this, showcase, ids
      ensures State() == ShowComponentState(old(State()), c, old(ids.next))
      ensures ids.next == old(ids.next) + ShowAllocates(old(State()))
      ensures old(showcase) != null ==> showcase == old(showcase)
      ensures old(showcase) == null ==> fresh(showcase)
    {
      if showcase != null {
        showcase.SetComponent(c, ids);
      } else {
        showcase := new ComponentShowcase(c);
      }
    }

    /** `show_welcome`. */
    method ShowWelcome()
      modifies this
      ensures State() == ShowWelcomeState(old(State())) && showcase == null
    {
      showcase := null;
    }

    /** `render`'s branch on the showcase field. */
    function Render(): (screen: Screen)
      reads this, showcase
      ensures screen.WelcomeScreen? <==> showcase == null
      ensures screen == RenderPage(State())
    {
      if showcase == null then WelcomeScreen(WelcomeTitle, WelcomeHint) else ShowcaseScreen(showcase.State())
    }
  }
}
