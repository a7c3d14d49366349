/**
 * The showcase section's own state: the selected category button, the
 * grid/list layout, the project chosen for the detail dialog and whether that
 * dialog is open. Each handler sets one axis and leaves the others alone.
 */
module Showcase {
  import opened Options
  import opened Catalog
  import Card
  import Detail

  datatype ViewMode = Grid | List

  class Gallery {
    var selectedCategory: string
    var viewMode: ViewMode
    var selectedProject: Option<Project>
    var isModalOpen: bool

    /** The detail dialog is never open without a concrete project to show. */
    predicate Valid()
      reads this
    {
      isModalOpen ==> selectedProject.Some?
    }

    /** The cards currently listed: the catalog filtered by the selected category. */
    function Visible(): (r: seq<Project>)
      reads this
      ensures selectedCategory == AllCategory ==> r == MockProjects
      ensures selectedCategory != AllCategory ==>
                forall p :: p in r <==> p in MockProjects && p.category == selectedCategory
    {
      FilteredProjects(MockProjects, selectedCategory)
    }

    constructor ()
      ensures Valid()
      ensures selectedCategory == AllCategory && viewMode == Grid
      ensures selectedProject == None && !isModalOpen
      ensures Visible() == MockProjects
    {
      selectedCategory := AllCategory;
      viewMode := Grid;
      selectedProject := None;
      isModalOpen := false;
    }

    /** A category button: only the filter changes; the dialog state is untouched. */
    method SelectCategory(category: string)
      requires Valid()
      modifies this
      ensures Valid()
      ensures selectedCategory == category
      ensures viewMode == old(viewMode)
      ensures selectedProject == old(selectedProject) && isModalOpen == old(isModalOpen)
    {
      selectedCategory := category;
    }

    /** The grid and list buttons: only the layout changes, never the listed cards. */
    method SetViewMode(mode: ViewMode)
      requires Valid()
      modifies this
      ensures Valid()
      ensures viewMode == mode
      ensures selectedCategory == old(selectedCategory) && Visible() == old(Visible())
      ensures selectedProject == old(selectedProject) && isModalOpen == old(isModalOpen)
    {
      viewMode := mode;
    }

    /** A card's view action: remember the project and open the detail dialog on it. */
    method ViewProject(project: Project)
      requires Valid()
      modifies this
      ensures Valid()
      ensures selectedProject == Some(project) && isModalOpen
      ensures selectedCategory == old(selectedCategory) && viewMode == old(viewMode)
    {
      selectedProject := Some(project);
      isModalOpen := true;
    }

    /** The dialog's close request: only the open flag drops; the selected project is kept. */
    method CloseModal()
      requires Valid()
      modifies this
      ensures Valid()
      ensures !isModalOpen
      ensures selectedProject == old(selectedProject)
      ensures selectedCategory == old(selectedCategory) && viewMode == old(viewMode)
    {
      isModalOpen := false;
    }
  }

  /**
   * A card's view button reaches the gallery's handler (the card's `onView`),
   * and the dialog re-renders with the selected project and the open flag. The
   * dialog then shows that card's project, still on the tab and like state it
   * had before.
   */
  method ViewThroughCard(g: Gallery, card: Card.ProjectCard, dialog: Detail.DetailModal)
    requires g.Valid() && card.Valid() && dialog.Valid()
    requires card.hasOnView
    requires dialog.project == g.selectedProject && dialog.isOpen == g.isModalOpen
    modifies g, card, dialog
    ensures g.Valid() && card.Valid() && dialog.Valid()
    ensures card.viewRequests == old(card.viewRequests) + [card.project]
    ensures g.selectedProject == Some(card.project) && g.isModalOpen
    ensures g.selectedCategory == old(g.selectedCategory) && g.viewMode == old(g.viewMode)
    ensures dialog.Screen().Some? && dialog.Screen().value.title == card.project.title
    ensures dialog.Screen().value.tags == card.project.tags
    ensures card.isLiked == old(card.isLiked) && card.isHovered == old(card.isHovered)
    ensures dialog.toasts == old(dialog.toasts) && dialog.closeRequests == old(dialog.closeRequests)
    ensures dialog.project == g.selectedProject && dialog.isOpen == g.isModalOpen
    ensures dialog.activeTab == old(dialog.activeTab) && dialog.isLiked == old(dialog.isLiked)
  {
    card.ClickView();
    g.ViewProject(card.project);
    dialog.ReceiveProps(g.selectedProject, g.isModalOpen);
  }

  /**
   * The dialog's close control reaches the gallery's close handler; the dialog
   * re-renders closed and shows nothing, while the gallery keeps the project.
   */
  method CloseThroughDialog(g: Gallery, dialog: Detail.DetailModal)
    requires g.Valid() && dialog.Valid() && dialog.Interactive()
    requires dialog.project == g.selectedProject && dialog.isOpen == g.isModalOpen
    modifies g, dialog
    ensures g.Valid() && dialog.Valid()
    ensures dialog.closeRequests == old(dialog.closeRequests) + 1
    ensures !g.isModalOpen && g.selectedProject == old(g.selectedProject)
    ensures g.selectedCategory == old(g.selectedCategory) && g.viewMode == old(g.viewMode)
    ensures dialog.toasts == old(dialog.toasts)
    ensures dialog.Screen().None?
    ensures dialog.project == g.selectedProject && dialog.isOpen == g.isModalOpen
    ensures dialog.activeTab == old(dialog.activeTab) && dialog.isLiked == old(dialog.isLiked)
  {
    dialog.RequestClose();
    g.CloseModal();
    dialog.ReceiveProps(g.selectedProject, g.isModalOpen);
  }
}
