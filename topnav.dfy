/** The desktop navigation bar: a constant link list chosen by the user's role, and the
    link of the current page highlighted. */
module TopNav {

  /** An entry of a link list. `EmptyEntry` is the empty object a commented-out entry
      leaves behind in an array literal: it has neither path nor label. */
  datatype NavLink = Link(path: string, caption: string) | EmptyEntry

  /** `location.pathname === link.path`: the empty entry's path is `undefined`, which no
      pathname equals. */
  predicate IsActive(pathname: string, link: NavLink) {
    link.Link? && link.path == pathname
  }

  const FarmerTopLinks: seq<NavLink> := [Link("/farmermarketplace", "My Products"), Link("/offers", "Incoming Offers"), EmptyEntry]
  const BuyerTopLinks: seq<NavLink> := [Link("/marketplace", "Marketplace"), Link("/orders", "My Orders"), EmptyEntry]

  /** `userType === 'farmer'`, compared exactly. */
  function TopNavLinks(userType: string): seq<NavLink> {
    if userType == "farmer" then FarmerTopLinks else BuyerTopLinks
  }

  /** The farmer's bar is shown exactly for the role string "farmer"; any other string,
      whatever its case or spacing, gets the buyer's bar. */
  lemma TopNavChoice(userType: string)
    ensures TopNavLinks(userType) == FarmerTopLinks <==> userType == "farmer"
    ensures TopNavLinks(userType) == BuyerTopLinks <==> userType != "farmer"
  {
    assert FarmerTopLinks[0] != BuyerTopLinks[0];
  }

  /** No two links of a list share a path. */
  predicate DistinctPaths(links: seq<NavLink>) {
    forall i, j :: 0 <= i < j < |links| && links[i].Link? && links[j].Link? ==> links[i].path != links[j].path
  }

  /** At most one link is highlighted when paths are distinct, and the empty entry never is. */
  lemma AtMostOneActive(links: seq<NavLink>, pathname: string)
    requires DistinctPaths(links)
    ensures forall i, j :: 0 <= i < |links| && 0 <= j < |links| && IsActive(pathname, links[i]) && IsActive(pathname, links[j])
              ==> i == j
  {
  }

  /** Both bars have distinct paths, so each highlights at most one link; the third entry
      of either is the empty entry and is never highlighted. */
  lemma TopNavHighlight(userType: string, pathname: string)
    ensures DistinctPaths(TopNavLinks(userType))
    ensures |TopNavLinks(userType)| == 3 && !IsActive(pathname, TopNavLinks(userType)[2])
  {
  }
}
