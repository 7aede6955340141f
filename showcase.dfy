/**
 * The showcase pane: the selected component kind and a lazily created, cached demo view.
 * The header (title, description, link) is derived from the kind on every render; the demo
 * view is created on the first render after construction and re-created on every selection.
 */
module Showcase {
  import opened Wrappers
  import opened Registry
  import Toolkit

  datatype ShowcaseState = ShowcaseState(component: Component, currentView: Option<View>)

  /** The header fields shown above the demo. */
  datatype Header = Header(title: string, description: string, link: string)

  /** Title from `Display`, description and link from the registry. */
  function HeaderOf(c: Component): Header {
    Header(Name(c), Description(c), Link(c))
  }

  /** The title parses back to the kind shown, and the link is that kind's documentation page. */
  lemma HeaderDescribesKind(c: Component)
    ensures Parse(HeaderOf(c).title) == Some(c)
    ensures HeaderOf(c).link == DocsPrefix + DocPage(c)
  {
    var h := HeaderOf(c);
    assert h.title == Name(c) && h.link == Link(c);
    ParseName(c);
  }

  /** Distinct kinds get distinct titles. */
  lemma HeaderTitlesDistinct(c: Component, d: Component)
    requires HeaderOf(c).title == HeaderOf(d).title
    ensures c == d
  {
    assert HeaderOf(c).title == Name(c) && HeaderOf(d).title == Name(d);
    NameInjective(c, d);
  }

  /** What every reachable showcase keeps: a cached view belongs to the selected kind and an issued entity. */
  predicate Invariant(s: ShowcaseState, next: nat) {
    s.currentView.Some? ==> s.currentView.value.kind == s.component && s.currentView.value.id < next
  }

  /** `ComponentShowcase::new`. */
  function NewShowcase(c: Component): ShowcaseState {
    ShowcaseState(c, None)
  }

  /** `set_component`, where `id` is the entity the toolkit allocates for the new view. */
  function SetComponentState(s: ShowcaseState, c: Component, id: nat): ShowcaseState {
    ShowcaseState(c, Some(CreateView(c, id)))
  }

  /** The outcome of one `render`'s view cache: the new state, the view shown, and whether it was just created. */
  datatype Rendered = Rendered(state: ShowcaseState, view: View, created: bool)

  /** `render`: reuse the cached view, or create one with entity `id` and cache it. */
  function RenderState(s: ShowcaseState, id: nat): Rendered {
    match s.currentView
    case Some(v) => Rendered(s, v, false)
    case None =>
      var v := CreateView(s.component, id);
      Rendered(ShowcaseState(s.component, Some(v)), v, true)
  }

  /** The number of entities a render allocates. */
  function RenderAllocates(r: Rendered): nat {
    if r.created then 1 else 0
  }

  /** A new showcase shows `c` and has no view yet. */
  lemma NewShowcaseEmpty(c: Component, next: nat)
    ensures NewShowcase(c).component == c && NewShowcase(c).currentView == None
    ensures Invariant(NewShowcase(c), next)
  {
  }

  /**
   * Selecting a kind installs a freshly created view of that kind in its initial state,
   * distinct from the view cached before, even when the kind is the one already selected.
   */
  lemma SetComponentFresh(s: ShowcaseState, c: Component, next: nat)
    requires Invariant(s, next)
    ensures var r := SetComponentState(s, c, next);
      && r.component == c
      && r.currentView.Some?
      && r.currentView.value.kind == c
      && r.currentView.value.state == InitialState(c)
      && (s.currentView.Some? ==> r.currentView.value != s.currentView.value)
      && Invariant(r, next + 1)
  {
  }

  /** Rendering without a cached view creates exactly one view, of the selected kind, and caches it. */
  lemma RenderCreatesWhenEmpty(s: ShowcaseState, next: nat)
    requires s.currentView.None?
    ensures var r := RenderState(s, next);
      && r.created && RenderAllocates(r) == 1
      && r.view.id == next && r.view.kind == s.component && r.view.state == InitialState(s.component)
      && r.state == ShowcaseState(s.component, Some(r.view))
  {
  }

  /** Rendering with a cached view creates nothing and shows the cached view. */
  lemma RenderReusesCache(s: ShowcaseState, next: nat)
    requires s.currentView.Some?
    ensures var r := RenderState(s, next);
      !r.created && RenderAllocates(r) == 0 && r.state == s && r.view == s.currentView.value
  {
  }

  /** Rendering keeps the invariant and shows a view of the selected kind. */
  lemma RenderPreservesInvariant(s: ShowcaseState, next: nat)
    requires Invariant(s, next)
    ensures var r := RenderState(s, next);
      && Invariant(r.state, next + RenderAllocates(r))
      && r.view.kind == s.component
  {
  }

  /** A second render changes nothing and shows the same view as the first. */
  lemma RenderIdempotent(s: ShowcaseState, first: nat, second: nat)
    ensures var r1 := RenderState(s, first);
      var r2 := RenderState(r1.state, second);
      !r2.created && r2.state == r1.state && r2.view == r1.view
  {
  }

  /** The showcase entity, whose fields `set_component` and `render` update in place. */
  class ComponentShowcase {
    var component: Component
    var currentView: Option<View>

    function State(): ShowcaseState
      reads this
    {
      ShowcaseState(component, currentView)
    }

    ghost predicate Valid(ids: Toolkit.EntityIds)
      reads this, ids
    {
      Invariant(State(), ids.next)
    }

    constructor (c: Component)
      ensures State() == NewShowcase(c)
    {
      component := c;
      currentView := None;
    }

    /** `set_component`: select `c` and create its view now. */
    method SetComponent(c: Component, ids: Toolkit.EntityIds)
      modifies this, ids
      ensures State() == SetComponentState(old(State()), c, old(ids.next))
      ensures ids.next == old(ids.next) + 1
      ensures old(Valid(ids)) ==> Valid(ids)
    {
      component := c;
      var id := ids.Fresh();
      currentView := Some(CreateView(component, id));
    }

    /** The header fields `render` shows: title, description and link of the selected kind. */
    function HeaderFields(): (h: Header)
      reads this
      ensures Parse(h.title) == Some(component)
      ensures h.description == Description(component) && h.link == DocsPrefix + DocPage(component)
    {
      HeaderDescribesKind(component);
      HeaderOf(component)
    }

    /** `render`'s view cache: the demo view, created and cached on first use. */
    method Render(ids: Toolkit.EntityIds) returns (view: View)
      modifies this, ids
      ensures var r := RenderState(old(State()), old(ids.next));
        State() == r.state && view == r.view && ids.next == old(ids.next) + RenderAllocates(r)
      ensures old(Valid(ids)) ==> Valid(ids)
    {
      ghost var s := State();
      ghost var n := ids.next;
      if currentView.Some? {
        view := currentView.value;
      } else {
        var id := ids.Fresh();
        view := CreateView(component, id);
        currentView := Some(view);
        assert State() == ShowcaseState(s.component, Some(view));
      }
    }
  }
}
