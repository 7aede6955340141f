/**
 * The closed set of demo components listed in the sidebar.  For each kind the registry gives
 * its display name (and parses it back), a description, a documentation link and a factory
 * for its demo view, which starts in that kind's initial state.
 */
module Registry {
  import opened Wrappers
  import ChartModel = Chart

  /** The active variants, in declaration order. */
  datatype Component =
    | Accordion | Alert | Avatar | Badge | Button | Calendar | Chart
    | Checkbox | Clipboard | Collapsible | DropdownButton | Popover | Skeleton

  /** `Components::iter()`: every variant once, in declaration order; this is the sidebar order. */
  const All: seq<Component> :=
    [Accordion, Alert, Avatar, Badge, Button, Calendar, Chart,
     Checkbox, Clipboard, Collapsible, DropdownButton, Popover, Skeleton]

  /** The position of a variant in declaration order. */
  function Ordinal(c: Component): nat {
    match c
    case Accordion => 0
    case Alert => 1
    case Avatar => 2
    case Badge => 3
    case Button => 4
    case Calendar => 5
    case Chart => 6
    case Checkbox => 7
    case Clipboard => 8
    case Collapsible => 9
    case DropdownButton => 10
    case Popover => 11
    case Skeleton => 12
  }

  /** The iteration yields each of the 13 variants exactly once, in declaration order. */
  lemma AllEnumerates()
    ensures |All| == 13
    ensures forall c: Component :: Ordinal(c) < |All| && All[Ordinal(c)] == c
    ensures forall i | 0 <= i < |All| :: Ordinal(All[i]) == i
  {
  }

  lemma AllDistinct(i: nat, j: nat)
    requires i < j < |All|
    ensures All[i] != All[j]
  {
    AllEnumerates();
  }

  /** `Display`: the variant's own name, never empty. */
  function Name(c: Component): (r: string)
    ensures |r| > 0
  {
    match c
    case Accordion => "Accordion"
    case Alert => "Alert"
    case Avatar => "Avatar"
    case Badge => "Badge"
    case Button => "Button"
    case Calendar => "Calendar"
    case Chart => "Chart"
    case Checkbox => "Checkbox"
    case Clipboard => "Clipboard"
    case Collapsible => "Collapsible"
    case DropdownButton => "DropdownButton"
    case Popover => "Popover"
    case Skeleton => "Skeleton"
  }

  /** `EnumString`: the variant with exactly this name, if any. */
  function Parse(s: string): (r: Option<Component>)
    ensures r.Some? ==> Name(r.value) == s
  {
    if s == "Accordion" then Some(Accordion)
    else if s == "Alert" then Some(Alert)
    else if s == "Avatar" then Some(Avatar)
    else if s == "Badge" then Some(Badge)
    else if s == "Button" then Some(Button)
    else if s == "Calendar" then Some(Calendar)
    else if s == "Chart" then Some(Chart)
    else if s == "Checkbox" then Some(Checkbox)
    else if s == "Clipboard" then Some(Clipboard)
    else if s == "Collapsible" then Some(Collapsible)
    else if s == "DropdownButton" then Some(DropdownButton)
    else if s == "Popover" then Some(Popover)
    else if s == "Skeleton" then Some(Skeleton)
    else None
  }

  /** Parsing a display name gives the variant back. */
  lemma ParseName(c: Component)
    ensures Parse(Name(c)) == Some(c)
  {
  }

  /** A string parses iff it is some variant's name. */
  lemma ParseExact(s: string)
    ensures Parse(s).Some? <==> exists c: Component :: Name(c) == s
  {
    if c: Component :| Name(c) == s {
      ParseName(c);
    }
  }

  /** Distinct variants have distinct names. */
  lemma NameInjective(a: Component, b: Component)
    requires Name(a) == Name(b)
    ensures a == b
  {
    ParseName(a);
    ParseName(b);
  }

  /**
   * `AccordionComponent`'s `description()`, line by line. The unused kind parameter keeps the
   * verifier from expanding the long text at every use; the text is the same for every argument.
   */
  function AccordionDescription(c: Component): (r: string)
    ensures |r| > 0
  {
    "A collapsible content container with expandable sections"
  }

  /**
   * `AlertComponent`'s `description()`, line by line. The unused kind parameter keeps the
   * verifier from expanding the long text at every use; the text is the same for every argument.
   */
  function AlertDescription(c: Component): (r: string)
    ensures |r| > 0
  {
    "A versatile alert component for displaying important messages to users. \n"
    + "Supports multiple variants (info, success, warning, error), custom icons, optional titles, closable functionality, \n"
    + "and banner mode. Perfect for notifications, status messages, and user feedback."
  }

  /**
   * `AvatarComponentView::DESCRIPTION`, line by line. The unused kind parameter keeps the
   * verifier from expanding the long text at every use; the text is the same for every argument.
   */
  function AvatarDescription(c: Component): (r: string)
    ensures |r| > 0
  {
    "The Avatar component displays user profile images with intelligent fallbacks. \n"
    + "When no image is provided, it shows user initials or a placeholder icon."
  }

  /**
   * `BadgeComponentView::DESCRIPTION`, line by line. The unused kind parameter keeps the
   * verifier from expanding the long text at every use; the text is the same for every argument.
   */
  function BadgeDescription(c: Component): (r: string)
    ensures |r| > 0
  {
    "A versatile badge component that can display counts, dots, or icons on elements. \n"
    + "Perfect for indicating notifications, status, or other contextual information."
  }

  /**
   * `ButtonComponentView::DESCRIPTION`, line by line. The unused kind parameter keeps the
   * verifier from expanding the long text at every use; the text is the same for every argument.
   */
  function ButtonDescription(c: Component): (r: string)
    ensures |r| > 0
  {
    "The Button element with multiple variants, sizes, and states. \n"
    + "Supports icons, loading states, and can be grouped together."
  }

  /**
   * `CalendarComponent`'s `description()`, line by line. The unused kind parameter keeps the
   * verifier from expanding the long text at every use; the text is the same for every argument.
   */
  function CalendarDescription(c: Component): (r: string)
    ensures |r| > 0
  {
    "A standalone calendar component that provides a rich interface for date selection and navigation. \n"
    + "The Calendar component supports single date selection, date range selection, multiple month views, \n"
    + "custom disabled dates, and comprehensive keyboard navigation."
  }

  /**
   * `ChartComponentView::DESCRIPTION`, line by line. The unused kind parameter keeps the
   * verifier from expanding the long text at every use; the text is the same for every argument.
   */
  function ChartDescription(c: Component): (r: string)
    ensures |r| > 0
  {
    "A comprehensive charting library providing Line, Bar, Area, Pie, and Candlestick charts for data visualization. \n"
    + "The charts feature smooth animations, customizable styling, tooltips, legends, \n"
    + "and automatic theming that adapts to your application's theme."
  }

  /**
   * `CheckboxComponentView::DESCRIPTION`, line by line. The unused kind parameter keeps the
   * verifier from expanding the long text at every use; the text is the same for every argument.
   */
  function CheckboxDescription(c: Component): (r: string)
    ensures |r| > 0
  {
    "A checkbox component for binary choices. \n"
    + "Supports labels, disabled state, and different sizes."
  }

  /**
   * `ClipboardComponentView::DESCRIPTION`, line by line. The unused kind parameter keeps the
   * verifier from expanding the long text at every use; the text is the same for every argument.
   */
  function ClipboardDescription(c: Component): (r: string)
    ensures |r| > 0
  {
    "The Clipboard component provides an easy way to copy text or other data to the user's clipboard. \n"
    + "It renders as a button with a copy icon that changes to a checkmark when content is successfully copied. \n"
    + "The component supports both static values and dynamic content through callback functions."
  }

  /**
   * `CollapsibleComponentView::DESCRIPTION`, line by line. The unused kind parameter keeps the
   * verifier from expanding the long text at every use; the text is the same for every argument.
   */
  function CollapsibleDescription(c: Component): (r: string)
    ensures |r| > 0
  {
    "An interactive element which expands/collapses."
  }

  /**
   * `DropdownButtonComponentView::DESCRIPTION`, line by line. The unused kind parameter keeps the
   * verifier from expanding the long text at every use; the text is the same for every argument.
   */
  function DropdownButtonDescription(c: Component): (r: string)
    ensures |r| > 0
  {
    "A DropdownButton is a combination of a button and a trigger button. \n"
    + "It allows us to display a dropdown menu when the trigger is clicked, \n"
    + "but the left Button can still respond to independent events. \n"
    + "\n"
    + "And more option methods of Button are also available for the DropdownButton, \n"
    + "such as setting different variants using ButtonCustomVariant, sizes using Sizable, adding icons, loading states."
  }

  /**
   * `PopoverComponentView::DESCRIPTION`, line by line. The unused kind parameter keeps the
   * verifier from expanding the long text at every use; the text is the same for every argument.
   */
  function PopoverDescription(c: Component): (r: string)
    ensures |r| > 0
  {
    "Popover component for displaying floating content that appears when interacting with a trigger element. \n"
    + "Supports multiple positioning options, custom content, different trigger methods, \n"
    + "and automatic dismissal behaviors. Perfect for tooltips, menus, forms, and other contextual information."
  }

  /**
   * `SkeletonComponentView::DESCRIPTION`, line by line. The unused kind parameter keeps the
   * verifier from expanding the long text at every use; the text is the same for every argument.
   */
  function SkeletonDescription(c: Component): (r: string)
    ensures |r| > 0
  {
    "The Skeleton component displays animated placeholder content while actual content is loading. \n"
    + "It provides visual feedback to users that content is being loaded and helps maintain layout structure during loading states."
  }

  /**
   * `description()`: the `DESCRIPTION` constant of the kind's view; none is empty.
   */
  function Description(c: Component): (r: string)
    ensures |r| > 0
  {
    match c
    case Accordion => AccordionDescription(c)
    case Alert => AlertDescription(c)
    case Avatar => AvatarDescription(c)
    case Badge => BadgeDescription(c)
    case Button => ButtonDescription(c)
    case Calendar => CalendarDescription(c)
    case Chart => ChartDescription(c)
    case Checkbox => CheckboxDescription(c)
    case Clipboard => ClipboardDescription(c)
    case Collapsible => CollapsibleDescription(c)
    case DropdownButton => DropdownButtonDescription(c)
    case Popover => PopoverDescription(c)
    case Skeleton => SkeletonDescription(c)
  }

  const DocsPrefix: string := "https://longbridge.github.io/gpui-component/docs/components/"

  /** The page name under the documentation root. */
  function DocPage(c: Component): (r: string)
    ensures |r| > 0
  {
    match c
    case Accordion => "accordion"
    case Alert => "alert"
    case Avatar => "avatar"
    case Badge => "badge"
    case Button => "button"
    case Calendar => "calendar"
    case Chart => "chart"
    case Checkbox => "checkbox"
    case Clipboard => "clipboard"
    case Collapsible => "collapsible"
    case DropdownButton => "dropdown_button"
    case Popover => "popover"
    case Skeleton => "skeleton"
  }

  /** `link()`: the constant of each kind, the documentation root followed by the page name. */
  function Link(c: Component): (r: string)
    ensures |r| > |DocsPrefix| && r[..|DocsPrefix|] == DocsPrefix
  {
    DocsPrefix + DocPage(c)
  }

  /** Distinct variants have distinct documentation pages. */
  lemma DocPageInjective(a: Component, b: Component)
    requires DocPage(a) == DocPage(b)
    ensures a == b
  {
  }

  /** Distinct variants link to distinct pages. */
  lemma LinkInjective(a: Component, b: Component)
    requires Link(a) == Link(b)
    ensures a == b
  {
    assert DocPage(a) == Link(a)[|DocsPrefix|..];
    assert DocPage(b) == Link(b)[|DocsPrefix|..];
    DocPageInjective(a, b);
  }

  // ---------------------------------------------------------------------------
  // Demo views

  /** The state of each kind's demo object as it is created by `create_view`. */
  datatype ViewState =
    | AccordionView
    | AlertView
    | AvatarView
    | BadgeView
    | ButtonView
    | CalendarView
    | ChartView(chart: ChartModel.ChartState)
    | CheckboxView(isChecked: bool, agreeTerms: bool, subscribe: bool)
    | ClipboardView
    | CollapsibleView(open: bool)
    | DropdownButtonView
    | PopoverView(open: bool)
    | SkeletonView(isLoading: bool)

  /** The kind of demo a view state belongs to. */
  function KindOf(s: ViewState): Component {
    match s
    case AccordionView => Accordion
    case AlertView => Alert
    case AvatarView => Avatar
    case BadgeView => Badge
    case ButtonView => Button
    case CalendarView => Calendar
    case ChartView(_) => Chart
    case CheckboxView(_, _, _) => Checkbox
    case ClipboardView => Clipboard
    case CollapsibleView(_) => Collapsible
    case DropdownButtonView => DropdownButton
    case PopoverView(_) => Popover
    case SkeletonView(_) => Skeleton
  }

  /** The state each kind's `new()` (or unit value) produces; a chart starts valid, with its loop guard armed. */
  function InitialState(c: Component): (r: ViewState)
    ensures r.ChartView? ==> ChartModel.ValidChart(r.chart) && ChartModel.ShouldStartAutoUpdate(r.chart)
  {
    match c
    case Accordion => AccordionView
    case Alert => AlertView
    case Avatar => AvatarView
    case Badge => BadgeView
    case Button => ButtonView
    case Calendar => CalendarView
    case Chart => ChartView(ChartModel.InitialChart())
    case Checkbox => CheckboxView(false, false, false)
    case Clipboard => ClipboardView
    case Collapsible => CollapsibleView(false)
    case DropdownButton => DropdownButtonView
    case Popover => PopoverView(false)
    case Skeleton => SkeletonView(true)
  }

  /** The factory is total and builds a view of the kind asked for. */
  lemma InitialStateKind(c: Component)
    ensures KindOf(InitialState(c)) == c
  {
  }

  /** The initial flags of the stateful demos. */
  lemma InitialStates()
    ensures InitialState(Skeleton) == SkeletonView(true)
    ensures InitialState(Popover).open == false && InitialState(Collapsible).open == false
    ensures var s := InitialState(Checkbox); !s.isChecked && !s.agreeTerms && !s.subscribe
    ensures ChartModel.ValidChart(InitialState(Chart).chart) && ChartModel.ShouldStartAutoUpdate(InitialState(Chart).chart)
  {
  }

  /** A demo view: an entity handle, its kind, and the state its object was created in. */
  datatype View = View(id: nat, kind: Component, state: ViewState)

  /** `create_view`, given the entity identity the toolkit allocates for it. */
  function CreateView(c: Component, id: nat): (v: View)
    ensures v.id == id && v.kind == c && KindOf(v.state) == c
  {
    InitialStateKind(c);
    View(id, c, InitialState(c))
  }
}
