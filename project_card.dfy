/** One project card: the featured badge, at most three technology badges
    and an overflow count, the code and demo links, and which clicks open the
    project's modal. */
module ProjectCard {
  import opened Common
  import opened Types
  import Catalogue

  /** How many technology badges a card shows. */
  const MaxBadges := 3

  /** `project.tech.slice(0, 3)`: the first three entries, in order. */
  function ShownBadges(tech: seq<string>): (r: seq<string>)
    ensures |r| <= MaxBadges && |r| <= |tech| && r == tech[..|r|]
    ensures |r| == if |tech| < MaxBadges then |tech| else MaxBadges
  {
    if |tech| <= MaxBadges then tech else tech[..MaxBadges]
  }

  /** The "+n" badge: present only when there are more than three entries,
      and then counting the ones not shown. */
  function OverflowCount(tech: seq<string>): Option<nat> {
    if |tech| > MaxBadges then Some(|tech| - MaxBadges) else None
  }

  /** Every entry is accounted for: the shown badges plus the overflow count
      make up the whole list, and the overflow badge appears exactly when
      some entry is hidden. */
  lemma BadgesAccountForAll(tech: seq<string>)
    ensures OverflowCount(tech).Some? <==> |ShownBadges(tech)| < |tech|
    ensures |ShownBadges(tech)| + (if OverflowCount(tech).Some? then OverflowCount(tech).value else 0) == |tech|
    ensures OverflowCount(tech).None? ==> ShownBadges(tech) == tech
  {
  }

  /** What a card renders, beyond its text. */
  datatype CardView = CardView(
    featuredBadge: bool,
    badges: seq<string>,
    overflow: Option<nat>,
    codeLink: Option<string>,
    demoLink: Option<string>)

  /** A link is rendered for a truthy URL, pointing at it. */
  function LinkFor(url: Option<string>): (r: Option<string>)
    ensures r.Some? <==> Truthy(url)
    ensures r.Some? ==> r == url
  {
    if Truthy(url) then url else None
  }

  function Render(p: Project): (r: CardView)
    ensures r.featuredBadge <==> p.featured
    ensures r.codeLink.Some? <==> Truthy(p.github)
    ensures r.demoLink.Some? <==> Truthy(p.live)
    ensures |r.badges| <= MaxBadges
    ensures r.badges == ShownBadges(p.tech) && r.overflow == OverflowCount(p.tech)
    ensures r.codeLink == LinkFor(p.github) && r.demoLink == LinkFor(p.live)
  {
    CardView(p.featured, ShownBadges(p.tech), OverflowCount(p.tech), LinkFor(p.github), LinkFor(p.live))
  }

  /** Where a click lands on a card. */
  datatype ClickTarget = CardSurface | CodeLink | DemoLink

  /** How many times a click calls the card's `onClick`. Both links call
      `e.stopPropagation()` in their own handler, so a click on a link never
      reaches the card's handler; a click on the card itself calls it once,
      and only when the parent passed a handler. */
  function CardHandlerCalls(target: ClickTarget, hasOnClick: bool): (r: nat)
    ensures r <= 1
    ensures r == 1 <==> target == CardSurface && hasOnClick
  {
    match target
    case CardSurface => if hasOnClick then 1 else 0
    case CodeLink => 0
    case DemoLink => 0
  }

  /** On the catalogue every card hides some technology: the first two
      projects show three badges and "+1", the last two three and "+2"; the
      featured badge marks projects 1, 2 and 4; every project has both links. */
  lemma CatalogueCards()
    ensures Render(Catalogue.PROJECTS[0]).overflow == Some(1) && Render(Catalogue.PROJECTS[1]).overflow == Some(1)
    ensures Render(Catalogue.PROJECTS[2]).overflow == Some(2) && Render(Catalogue.PROJECTS[3]).overflow == Some(2)
    ensures Render(Catalogue.PROJECTS[2]).badges == ["React", "PWA", "localStorage"]
    ensures forall i :: 0 <= i < |Catalogue.PROJECTS| ==>
      |Render(Catalogue.PROJECTS[i]).badges| == 3
      && (Render(Catalogue.PROJECTS[i]).featuredBadge <==> i != 2)
      && Render(Catalogue.PROJECTS[i]).codeLink.Some? && Render(Catalogue.PROJECTS[i]).demoLink.Some?
  {
    assert Catalogue.PROJECTS[2].tech[..3] == ["React", "PWA", "localStorage"];
  }
}
