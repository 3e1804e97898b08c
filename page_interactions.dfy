/** How components interact through the one page they share. The header's
    mobile menu and the projects' modal both write the body's `overflow`
    style, and neither reads the other's state before writing it. */
module PageInteractions {
  import Dom
  import Header
  import Projects

  /** Closing a project's modal while the mobile menu is open unlocks
      scrolling under the open menu: the modal's close handler writes
      "unset" whatever the header's state, and the menu stays open. */
  method CloseModalUnderOpenMenu(header: Header.HeaderState, view: Projects.ProjectsView)
    requires header.page == view.page
    requires header.isOpen && view.page.bodyOverflow == "hidden"
    modifies view, view.page
    ensures header.isOpen
    ensures view.page.bodyOverflow == "unset"
    ensures view.selectedProject.None?
  {
    view.CloseModal();
  }
}
