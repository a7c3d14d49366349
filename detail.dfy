/**
 * The project detail dialog: the null-project guard, the four-tab panel
 * switch, the colour roles, the download notification and the like button.
 * The dialog is mounted once by the showcase and receives its project and
 * open flag as props, so its own state outlives a change of project.
 */
module Detail {
  import opened Options
  import opened Toasts
  import opened Catalog
  import Card

  datatype Tab = Overview | Colors | Typography | Assets

  /** The tab buttons, in display order. */
  const Tabs: seq<Tab> := [Overview, Colors, Typography, Assets]

  /** The string id a tab button stores in `activeTab`. */
  function Id(t: Tab): string
  {
    match t
    case Overview => "overview"
    case Colors => "colors"
    case Typography => "typography"
    case Assets => "assets"
  }

  const TabIds: seq<string> := ["overview", "colors", "typography", "assets"]

  lemma TabIdsAreTheButtons()
    ensures |TabIds| == |Tabs|
    ensures forall i :: 0 <= i < |Tabs| ==> TabIds[i] == Id(Tabs[i])
    ensures forall s :: s in TabIds <==> exists t :: Id(t) == s
  {
  }

  /** The panels drawn below the buttons: one `activeTab === id &&` guard per tab. */
  function Panels(activeTab: string): (r: seq<Tab>)
    ensures forall t :: t in r <==> Id(t) == activeTab
    ensures activeTab in TabIds ==> |r| == 1
    ensures activeTab !in TabIds ==> r == []
  {
    (if activeTab == Id(Overview) then [Overview] else [])
    + (if activeTab == Id(Colors) then [Colors] else [])
    + (if activeTab == Id(Typography) then [Typography] else [])
    + (if activeTab == Id(Assets) then [Assets] else [])
  }

  /** The label under a colour swatch, by its position in the palette. */
  function RoleLabel(index: nat): (r: string)
    ensures index == 0 ==> r == "Primary"
    ensures index == 1 ==> r == "Secondary"
    ensures index == 2 ==> r == "Accent"
    ensures r == "Supporting" <==> index >= 3
  {
    if index == 0 then "Primary"
    else if index == 1 then "Secondary"
    else if index == 2 then "Accent"
    else "Supporting"
  }

  datatype Swatch = Swatch(color: string, role: string)

  /** The colours panel: every colour, in order, with its role label. */
  function Palette(colors: seq<string>): (r: seq<Swatch>)
    ensures |r| == |colors|
    ensures forall i :: 0 <= i < |r| ==> r[i].color == colors[i] && r[i].role == RoleLabel(i)
  {
    seq(|colors|, i requires 0 <= i < |colors| => Swatch(colors[i], RoleLabel(i)))
  }

  /**
   * Primary, Secondary and Accent each label at most one swatch, in that order
   * at the front of the palette; every later swatch is Supporting.
   */
  lemma PaletteRolesDistinct(colors: seq<string>)
    ensures forall i, j :: 0 <= i < j < |Palette(colors)| && Palette(colors)[i].role == Palette(colors)[j].role ==>
              Palette(colors)[i].role == "Supporting"
    ensures forall i :: 0 <= i < |Palette(colors)| ==>
              && (Palette(colors)[i].role == "Primary" <==> i == 0)
              && (Palette(colors)[i].role == "Secondary" <==> i == 1)
              && (Palette(colors)[i].role == "Accent" <==> i == 2)
  {
  }

  const DownloadTitle: string := "Download Started"
  const DownloadSuffix: string := " files are being prepared for download."

  /**
   * The quick-action download buttons, always on screen, and the packages
   * listed in the assets panel, whose buttons exist only while that tab is active.
   */
  const QuickDownloads: seq<string> := ["Style Guide", "Logo", "Assets"]
  const AssetPackages: seq<string> :=
    ["Logo Package", "Brand Guidelines", "Color Swatches", "Typography Files", "Mockup Templates"]

  /** The notification a download button raises for the asset kind `kind`. */
  function DownloadToast(kind: string): (r: Toast)
    ensures r.title == DownloadTitle && r.variant == Default
    ensures |r.description| == |kind| + |DownloadSuffix|
    ensures r.description[..|kind|] == kind && r.description[|kind|..] == DownloadSuffix
  {
    Toast(DownloadTitle, kind + DownloadSuffix, Default)
  }

  /** The notification names the asset kind: different kinds give different notifications. */
  lemma DownloadToastNamesKind(a: string, b: string)
    ensures DownloadToast(a) == DownloadToast(b) ==> a == b
  {
  }

  /**
   * What the open dialog shows (layout, images and decorative counters aside).
   * `palette` holds the swatches of the colours panel, so it is empty while
   * another tab is active.
   */
  datatype DetailScreen = DetailScreen(
    title: string,
    category: string,
    description: string,
    featuredBadge: bool,
    tags: seq<string>,
    likeLabel: string,
    panels: seq<Tab>,
    palette: seq<Swatch>)

  /**
   * The component's output: nothing for a null project (the guard), nothing
   * while the dialog is closed, otherwise the screen for the project.
   */
  function Render(project: Option<Project>, isOpen: bool, activeTab: string, isLiked: bool): (r: Option<DetailScreen>)
    ensures project == None ==> r == None
    ensures r.Some? <==> project.Some? && isOpen
    ensures r.Some? ==> r.value.title == project.value.title && r.value.tags == project.value.tags
    ensures r.Some? ==> (r.value.likeLabel == "Liked" <==> isLiked)
    ensures r.Some? && activeTab in TabIds ==> |r.value.panels| == 1 && Id(r.value.panels[0]) == activeTab
    ensures r.Some? && activeTab == Id(Colors) ==> r.value.palette == Palette(project.value.colors)
    ensures r.Some? && activeTab == Id(Colors) ==> |r.value.palette| == |project.value.colors|
    ensures r.Some? && activeTab != Id(Colors) ==> r.value.palette == []
  {
    match project
    case None => None
    case Some(p) =>
      if !isOpen then None
      else Some(DetailScreen(p.title, p.category, p.description, p.featured, p.tags,
                             if isLiked then "Liked" else "Like",
                             Panels(activeTab), if activeTab == Id(Colors) then Palette(p.colors) else []))
  }

  /**
   * The card shows a prefix of the tags the dialog shows, and strictly fewer
   * exactly when the card has a "+N" counter.
   */
  lemma CardTagsPrefixOfDialogTags(p: Project, activeTab: string, isLiked: bool)
    ensures var screen := Render(Some(p), true, activeTab, isLiked);
            var strip := Card.TagStripOf(p.tags);
            screen.Some? && strip.shown <= screen.value.tags &&
            (|strip.shown| < |screen.value.tags| <==> strip.more.Some?)
  {
  }

  class DetailModal {
    var project: Option<Project>
    var isOpen: bool
    var isLiked: bool
    var activeTab: string
    var toasts: seq<Toast>
    var closeRequests: nat

    /** `activeTab` only ever holds one of the four tab ids. */
    predicate Valid()
      reads this
    {
      activeTab in TabIds
    }

    /** The handlers exist only when the guard passed and the dialog is open. */
    predicate Interactive()
      reads this
    {
      project.Some? && isOpen
    }

    function Screen(): (r: Option<DetailScreen>)
      reads this
      ensures r.Some? <==> Interactive()
      ensures Valid() && r.Some? ==> |r.value.panels| == 1
    {
      Render(project, isOpen, activeTab, isLiked)
    }

    constructor (project: Option<Project>, isOpen: bool)
      ensures Valid()
      ensures this.project == project && this.isOpen == isOpen
      ensures !isLiked && activeTab == Id(Overview)
      ensures toasts == [] && closeRequests == 0
    {
      this.project := project;
      this.isOpen := isOpen;
      isLiked := false;
      activeTab := "overview";
      toasts := [];
      closeRequests := 0;
    }

    /** The parent re-renders with new props; nothing resets the tab or the like flag. */
    method ReceiveProps(project: Option<Project>, isOpen: bool)
      requires Valid()
      modifies this
      ensures Valid()
      ensures this.project == project && this.isOpen == isOpen
      ensures isLiked == old(isLiked) && activeTab == old(activeTab)
      ensures toasts == old(toasts) && closeRequests == old(closeRequests)
    {
      this.project := project;
      this.isOpen := isOpen;
    }

    /** A tab button: `setActiveTab(tab.id)`. */
    method SelectTab(t: Tab)
      requires Valid() && Interactive()
      modifies this
      ensures Valid()
      ensures activeTab == Id(t) && Screen().Some? && Screen().value.panels == [t]
      ensures project == old(project) && isOpen == old(isOpen) && isLiked == old(isLiked)
      ensures toasts == old(toasts) && closeRequests == old(closeRequests)
    {
      activeTab := Id(t);
      assert t in Panels(activeTab);
    }

    /** The like button; its label reads "Liked" exactly when the flag is set. */
    method ToggleLike()
      requires Valid() && Interactive()
      modifies this
      ensures Valid()
      ensures isLiked == !old(isLiked)
      ensures Screen().Some? && (Screen().value.likeLabel == "Liked" <==> isLiked)
      ensures project == old(project) && isOpen == old(isOpen) && activeTab == old(activeTab)
      ensures toasts == old(toasts) && closeRequests == old(closeRequests)
    {
      isLiked := !isLiked;
    }

    /** A download button: one notification, no other state change. */
    method Download(kind: string)
      requires Valid() && Interactive()
      requires kind in QuickDownloads || (activeTab == Id(Assets) && kind in AssetPackages)
      modifies this
      ensures Valid()
      ensures toasts == old(toasts) + [DownloadToast(kind)]
      ensures project == old(project) && isOpen == old(isOpen)
      ensures isLiked == old(isLiked) && activeTab == old(activeTab) && closeRequests == old(closeRequests)
    {
      toasts := toasts + [DownloadToast(kind)];
    }

    /** The dialog's own close control, which calls the parent's `onClose`. */
    method RequestClose()
      requires Valid() && Interactive()
      modifies this
      ensures Valid()
      ensures closeRequests == old(closeRequests) + 1
      ensures project == old(project) && isOpen == old(isOpen)
      ensures isLiked == old(isLiked) && activeTab == old(activeTab) && toasts == old(toasts)
    {
      closeRequests := closeRequests + 1;
    }
  }
}
