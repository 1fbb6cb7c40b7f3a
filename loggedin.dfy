/** The layout around every signed-in page: it resolves the session from local storage,
    offers logout, and shows the role's bottom navigation on small screens. */
module LoggedIn {
  import opened Common
  import opened Text
  import opened TopNav

  const FarmerBottomLinks: seq<NavLink> := [Link("/offers", "Offers"), Link("/marketplace", "My Products"), Link("/messages", "Messages")]
  const BuyerBottomLinks: seq<NavLink> := [Link("/orders", "Orders"), Link("/marketplace", "Marketplace"), EmptyEntry]

  /** `role.trim().toLowerCase() === 'farmer'`. */
  predicate IsFarmerRole(role: string) {
    ToLower(Trim(role)) == "farmer"
  }

  /** The bottom navigation's link list. */
  function BottomNavLinks(role: string): seq<NavLink> {
    if IsFarmerRole(role) then FarmerBottomLinks else BuyerBottomLinks
  }

  /** The farmer's links exactly for a role that trims and lower-cases to "farmer". */
  lemma BottomNavChoice(role: string)
    ensures BottomNavLinks(role) == FarmerBottomLinks <==> IsFarmerRole(role)
    ensures BottomNavLinks(role) == BuyerBottomLinks <==> !IsFarmerRole(role)
  {
    assert FarmerBottomLinks[0] != BuyerBottomLinks[0];
  }

  /** The buyer's third entry is the empty entry the commented-out messages link left;
      the farmer's list reaches the messages page. */
  lemma BottomNavEntries(role: string)
    ensures |BottomNavLinks(role)| == 3
    ensures !IsFarmerRole(role) ==> BottomNavLinks(role)[2] == EmptyEntry
    ensures IsFarmerRole(role) ==> forall i :: 0 <= i < 3 ==> BottomNavLinks(role)[i].Link?
    ensures DistinctPaths(BottomNavLinks(role))
  {
  }

  /** The two bars disagree about a padded, capitalised role: " Farmer" is a farmer to the
      bottom navigation and a buyer to the top bar. */
  lemma RoleComparedDifferently()
    ensures BottomNavLinks(" Farmer") == FarmerBottomLinks
    ensures TopNavLinks(" Farmer") == BuyerTopLinks
  {
    var t := " Farmer";
    assert !IsSpace('F') && !IsSpace('r');
    assert t[1..] == "Farmer";
    assert TrimStart("Farmer") == "Farmer";
    assert TrimStart(t) == "Farmer";
    assert TrimEnd("Farmer") == "Farmer";
    var l := ToLower("Farmer");
    assert l[0] == 'f' && l[1] == 'a' && l[2] == 'r' && l[3] == 'm' && l[4] == 'e' && l[5] == 'r';
    assert l == "farmer";
  }

  /** What `JSON.parse` makes of the stored user: a profile, the value `null`, or a
      syntax error. */
  datatype Parsed = ParsedProfile(profile: Profile) | ParsedNull | Corrupt

  /** What the layout renders. */
  datatype Screen = Loading | Shell(user: Profile, topNav: seq<NavLink>, bottomNav: seq<NavLink>)

  class Layout {
    /** `localStorage`, key to stored string. */
    var store: map<string, string>
    var user: Option<Profile>
    /** The paths `navigate` was called with, in order. */
    var navigations: seq<string>

    /** The layout before its effect ran. */
    constructor (store: map<string, string>)
      ensures this.store == store && user == None && navigations == []
    {
      this.store := store;
      user := None;
      navigations := [];
    }

    /** `handleLogout`: exactly the `user` and `token` keys go, then to the login page. */
    method Logout()
      modifies this`store, this`navigations
      ensures store == old(store) - {"user", "token"}
      ensures navigations == old(navigations) + ["/login"]
    {
      store := store - {"user", "token"};
      navigations := navigations + ["/login"];
    }

    /** The mount effect, with `JSON.parse` given as `parse`. A stored user that parses
        becomes the user (`null` leaves it null, with no redirect); a corrupt one logs
        out; a missing or empty one sends the visitor to the login page. */
    method Mount(parse: string -> Parsed)
      modifies this`store, this`user, this`navigations
      ensures ("user" !in old(store) || old(store)["user"] == "") ==>
                store == old(store) && user == old(user) && navigations == old(navigations) + ["/login"]
      ensures "user" in old(store) && old(store)["user"] != "" ==>
                match parse(old(store)["user"])
                case ParsedProfile(p) => user == Some(p) && store == old(store) && navigations == old(navigations)
                case ParsedNull => user == None && store == old(store) && navigations == old(navigations)
                case Corrupt => user == old(user) && store == old(store) - {"user", "token"}
                                && navigations == old(navigations) + ["/login"]
    {
      if "user" in store && store["user"] != "" {
        match parse(store["user"]) {
          case ParsedProfile(p) =>
            user := Some(p);
          case ParsedNull =>
            user := None;
          case Corrupt =>
            Logout();
        }
      } else {
        navigations := navigations + ["/login"];
      }
    }

    /** The layout's output: the loading placeholder until there is a user, then the
        header and content with both bars for the user's role. */
    function View(): (s: Screen)
      reads this
      ensures user.None? <==> s == Loading
      ensures user.Some? ==> s.user == user.value
                             && s.topNav == TopNavLinks(user.value.role)
                             && s.bottomNav == BottomNavLinks(user.value.role)
    {
      match user
      case None => Loading
      case Some(u) => Shell(u, TopNavLinks(u.role), BottomNavLinks(u.role))
    }
  }

  /** A visitor with a readable stored farmer profile sees the farmer's bottom links and
      is not redirected. */
  method FarmerSession(p: Profile, stored: string, rest: map<string, string>) returns (layout: Layout)
    requires stored != "" && IsFarmerRole(p.role)
    ensures layout.View() == Shell(p, TopNavLinks(p.role), FarmerBottomLinks)
    ensures layout.navigations == []
  {
    layout := new Layout(rest["user" := stored]);
    layout.Mount(s => if s == stored then ParsedProfile(p) else Corrupt);
  }
}
