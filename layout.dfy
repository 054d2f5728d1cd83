/** The page frame of src/components/Layout.jsx: which public page the "View Public Site"
    link opens for the current path, and which navigation button is highlighted. */
module Layout {

  /** `s.includes(sub)`, by scanning `s` left to right. */
  function Includes(s: string, sub: string): (b: bool)
    decreases |s|
  {
    if |s| < |sub| then false
    else if s[..|sub|] == sub then true
    else Includes(s[1..], sub)
  }

  /** `sub` occurs in `s` starting at index `i`. */
  ghost predicate OccursAt(s: string, sub: string, i: int)
  {
    0 <= i && i + |sub| <= |s| && s[i..i + |sub|] == sub
  }

  /** The scan finds `sub` exactly when it occurs somewhere in `s`. */
  lemma {:induction false} IncludesIffOccurs(s: string, sub: string)
    ensures Includes(s, sub) <==> exists i :: OccursAt(s, sub, i)
    decreases |s|
  {
    if |s| < |sub| {
    } else if s[..|sub|] == sub {
      assert OccursAt(s, sub, 0);
    } else {
      IncludesIffOccurs(s[1..], sub);
      if exists i :: OccursAt(s, sub, i) {
        var i :| OccursAt(s, sub, i);
        assert i != 0;
        assert s[1..][i - 1..i - 1 + |sub|] == s[i..i + |sub|];
        assert OccursAt(s[1..], sub, i - 1);
      }
      if exists i :: OccursAt(s[1..], sub, i) {
        var i :| OccursAt(s[1..], sub, i);
        assert s[i + 1..i + 1 + |sub|] == s[1..][i..i + |sub|];
        assert OccursAt(s, sub, i + 1);
      }
    }
  }

  /** A path with `sub` spliced into it includes `sub`. */
  lemma IncludesInfix(before: string, sub: string, after: string)
    ensures Includes(before + sub + after, sub)
  {
    var s := before + sub + after;
    assert s[|before|..|before| + |sub|] == sub;
    assert OccursAt(s, sub, |before|);
    IncludesIffOccurs(s, sub);
  }

  /** `getPublicSiteUrl()`: the first of "/events", "/about", "/menu" the path includes picks
      the public page; with none of them it is the site root. */
  function PublicSiteUrl(publicBase: string, pathname: string): (url: string)
    ensures Includes(pathname, "/events") ==> url == publicBase + "/events"
    ensures !Includes(pathname, "/events") && Includes(pathname, "/about") ==> url == publicBase + "/about"
    ensures !Includes(pathname, "/events") && !Includes(pathname, "/about") && Includes(pathname, "/menu")
            ==> url == publicBase + "/menu"
    ensures !Includes(pathname, "/events") && !Includes(pathname, "/about") && !Includes(pathname, "/menu")
            ==> url == publicBase
    ensures url[..|publicBase|] == publicBase
  {
    if Includes(pathname, "/events") then publicBase + "/events"
    else if Includes(pathname, "/about") then publicBase + "/about"
    else if Includes(pathname, "/menu") then publicBase + "/menu"
    else publicBase
  }

  /** Wherever "/events" stands in the path, and whatever else the path holds, the link opens
      the public events page. */
  lemma EventsAnywhere(publicBase: string, before: string, after: string)
    ensures PublicSiteUrl(publicBase, before + "/events" + after) == publicBase + "/events"
  {
    IncludesInfix(before, "/events", after);
  }

  /** Without "/events", a path holding both "/about" and "/menu" opens the about page. */
  lemma AboutBeatsMenu(publicBase: string, before: string, middle: string, after: string)
    requires !Includes(before + "/about" + middle + "/menu" + after, "/events")
    ensures PublicSiteUrl(publicBase, before + "/about" + middle + "/menu" + after) == publicBase + "/about"
  {
    assert before + "/about" + middle + "/menu" + after == before + "/about" + (middle + "/menu" + after);
    IncludesInfix(before, "/about", middle + "/menu" + after);
  }

  const ACTIVE := "btn btn-sm btn-primary"
  const INACTIVE := "btn btn-sm btn-outline-primary"

  /** The class of the navigation button for `to`: highlighted only on that exact path. */
  function NavLinkClass(pathname: string, to: string): (cls: string)
    ensures cls == ACTIVE <==> pathname == to
    ensures cls == ACTIVE || cls == INACTIVE
  {
    "btn btn-sm " + (if pathname == to then "btn-primary" else "btn-outline-primary")
  }
}
