/**
 * One gallery card: the summary it draws for a project (placeholder letter,
 * every colour swatch, at most three tags and a "+N" counter) and its local
 * liked / hovered flags and view action.
 */
module Card {
  import opened Options
  import opened Catalog

  /** How many tags a card shows before it switches to a "+N" counter. */
  const MaxCardTags: nat := 3

  /** The tag row of a card: the tags drawn, and the N of "+N" when there is a counter. */
  datatype TagStrip = TagStrip(shown: seq<string>, more: Option<nat>)

  /** `tags.slice(0, 3)` followed by `+{tags.length - 3}` when there are more than three. */
  function TagStripOf(tags: seq<string>): (r: TagStrip)
    ensures r.shown <= tags
    ensures |r.shown| == if |tags| < MaxCardTags then |tags| else MaxCardTags
    ensures r.more.Some? <==> |tags| > MaxCardTags
    ensures r.more.Some? ==> |r.shown| + r.more.value == |tags| && r.shown + tags[|r.shown|..] == tags
    ensures r.more.None? ==> r.shown == tags
  {
    var shown := if |tags| <= MaxCardTags then tags else tags[..MaxCardTags];
    var more := if |tags| > MaxCardTags then Some(|tags| - MaxCardTags) else None;
    TagStrip(shown, more)
  }

  /**
   * `title.charAt(0)`: the first character, or the empty string for an empty
   * title. Titles are sequences of characters, not of UTF-16 code units.
   */
  function Placeholder(title: string): (r: string)
    ensures r <= title
    ensures |r| == if title == [] then 0 else 1
  {
    if title == [] then "" else [title[0]]
  }

  /** What a card draws for a project (layout and animation aside). */
  datatype CardFace = CardFace(
    placeholder: string,
    featuredBadge: bool,
    category: string,
    title: string,
    description: string,
    swatches: seq<string>,
    tags: TagStrip)

  function FaceOf(p: Project): (r: CardFace)
    ensures r.swatches == p.colors
    ensures r.placeholder <= p.title && |r.placeholder| <= 1
    ensures r.tags.shown <= p.tags && |r.tags.shown| <= MaxCardTags
    ensures r.featuredBadge <==> p.featured
    ensures r.tags == TagStripOf(p.tags) && r.placeholder == Placeholder(p.title)
    ensures r.title == p.title && r.category == p.category && r.description == p.description
    ensures r.tags.more.Some? <==> |p.tags| > MaxCardTags
  {
    CardFace(Placeholder(p.title), p.featured, p.category, p.title, p.description, p.colors, TagStripOf(p.tags))
  }

  /** The first catalog project has five tags, so its card shows three and "+2". */
  lemma FirstCatalogCardShowsPlusTwo()
    ensures TagStripOf(MockProjects[0].tags) == TagStrip(["Luxury", "Jewelry", "Retail"], Some(2))
    ensures Placeholder(MockProjects[0].title) == "N"
  {
  }

  /**
   * A mounted card. `hasOnView` says whether the parent passed an `onView`
   * callback; each call of that callback is recorded in `viewRequests`.
   */
  class ProjectCard {
    const project: Project
    const hasOnView: bool
    var isLiked: bool
    var isHovered: bool
    var viewRequests: seq<Project>

    /** The card only ever reports its own project, and nothing when there is no callback. */
    predicate Valid()
      reads this
    {
      && (forall k :: 0 <= k < |viewRequests| ==> viewRequests[k] == project)
      && (!hasOnView ==> viewRequests == [])
    }

    constructor (project: Project, hasOnView: bool)
      ensures Valid()
      ensures this.project == project && this.hasOnView == hasOnView
      ensures !isLiked && !isHovered && viewRequests == []
    {
      this.project := project;
      this.hasOnView := hasOnView;
      isLiked := false;
      isHovered := false;
      viewRequests := [];
    }

    /** The heart button. */
    method ToggleLike()
      requires Valid()
      modifies this
      ensures Valid()
      ensures isLiked == !old(isLiked)
      ensures isHovered == old(isHovered) && viewRequests == old(viewRequests)
    {
      isLiked := !isLiked;
    }

    method MouseEnter()
      requires Valid()
      modifies this
      ensures Valid()
      ensures isHovered
      ensures isLiked == old(isLiked) && viewRequests == old(viewRequests)
    {
      isHovered := true;
    }

    method MouseLeave()
      requires Valid()
      modifies this
      ensures Valid()
      ensures !isHovered
      ensures isLiked == old(isLiked) && viewRequests == old(viewRequests)
    {
      isHovered := false;
    }

    /** The eye button: `onView?.(project)`. */
    method ClickView()
      requires Valid()
      modifies this
      ensures Valid()
      ensures viewRequests == old(viewRequests) + (if hasOnView then [project] else [])
      ensures isLiked == old(isLiked) && isHovered == old(isHovered)
    {
      if hasOnView {
        viewRequests := viewRequests + [project];
      }
    }
  }

  /** Two clicks on the heart restore the original liked state. */
  method LikeTwiceRestores(card: ProjectCard)
    requires card.Valid()
    modifies card
    ensures card.Valid()
    ensures card.isLiked == old(card.isLiked)
    ensures card.isHovered == old(card.isHovered) && card.viewRequests == old(card.viewRequests)
  {
    card.ToggleLike();
    card.ToggleLike();
  }
}
