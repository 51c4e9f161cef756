/**
 * The navigation sidebar: which top-level sections are expanded, which entry
 * is highlighted, how the highlight follows the current URL path, and what a
 * click on an entry does.
 */
module Sidebar {
  import opened Wrappers
  import opened Text

  /** A menu entry: a top-level section with children, or a leaf with a path. */
  datatype Entry = Entry(id: string, path: Option<string>, children: seq<Entry>)

  function Leaf(id: string, path: string): Entry
  {
    Entry(id, Some(path), [])
  }

  /** `menuItems`, less titles and icons. */
  const MenuItems: seq<Entry> := [
    Leaf("dashboard", "/dashboard"),
    Entry("juegos", None, [
      Leaf("comunicacion", "/juegos/comunicacion"),
      Leaf("social", "/juegos/social"),
      Leaf("cognitivo", "/juegos/cognitivo"),
      Leaf("sensorial", "/juegos/sensorial"),
      Leaf("motor", "/juegos/motor"),
      Leaf("emocional", "/juegos/emocional")]),
    Entry("progreso", None, [
      Leaf("estadisticas", "/progreso/estadisticas"),
      Leaf("logros", "/progreso/logros"),
      Leaf("reportes", "/progreso/reportes")]),
    Entry("recursos", None, [
      Leaf("guias", "/recursos/guias"),
      Leaf("articulos", "/recursos/articulos"),
      Leaf("videos", "/recursos/videos")]),
    Entry("configuracion", None, [
      Leaf("perfil", "/configuracion/perfil"),
      Leaf("accesibilidad", "/configuracion/accesibilidad"),
      Leaf("notificaciones", "/configuracion/notificaciones")])
  ]

  /** The id of a top-level entry or of one of its children. */
  predicate IsMenuId(id: string)
  {
    exists i :: 0 <= i < |MenuItems| && (MenuItems[i].id == id || IsChildId(MenuItems[i], id))
  }

  predicate IsChildId(e: Entry, id: string)
  {
    exists j :: 0 <= j < |e.children| && e.children[j].id == id
  }

  /** `prev.filter(s => s !== section)`: every other id, in order. */
  function RemoveAll(xs: seq<string>, x: string): (r: seq<string>)
    ensures forall y :: y in r <==> y in xs && y != x
  {
    if xs == [] then [] else (if xs[0] == x then [] else [xs[0]]) + RemoveAll(xs[1..], x)
  }

  /** Filtering drops every copy of `x` and keeps every copy of everything else. */
  lemma {:induction false} RemoveAllCount(xs: seq<string>, x: string)
    ensures multiset(RemoveAll(xs, x)) == multiset(xs)[x := 0]
    decreases |xs|
  {
    if xs != [] {
      assert xs == [xs[0]] + xs[1..];
      RemoveAllCount(xs[1..], x);
    }
  }

  /** Filtering out an absent id changes nothing. */
  lemma {:induction false} RemoveAllAbsent(xs: seq<string>, x: string)
    requires x !in xs
    ensures RemoveAll(xs, x) == xs
    decreases |xs|
  {
    if xs != [] {
      assert xs == [xs[0]] + xs[1..];
      RemoveAllAbsent(xs[1..], x);
    }
  }

  /** Filtering keeps the order: filtering a concatenation filters each part. */
  lemma {:induction false} RemoveAllAppend(a: seq<string>, b: seq<string>, x: string)
    ensures RemoveAll(a + b, x) == RemoveAll(a, x) + RemoveAll(b, x)
    decreases |a|
  {
    if a == [] {
      assert a + b == b;
    } else {
      var ab := a + b;
      assert ab[0] == a[0] && ab[1..] == a[1..] + b;
      RemoveAllAppend(a[1..], b, x);
      assert RemoveAll(ab, x) == (if a[0] == x then [] else [a[0]]) + RemoveAll(a[1..] + b, x);
    }
  }

  /** `toggleSection`: a present id goes, every copy of it; an absent one is appended. */
  function Toggled(expanded: seq<string>, section: string): (r: seq<string>)
    ensures section in r <==> section !in expanded
    ensures forall y :: y != section ==> (y in r <==> y in expanded)
  {
    if section in expanded then RemoveAll(expanded, section) else expanded + [section]
  }

  /** Toggling an absent id appends it at the end. */
  lemma ToggleAbsent(expanded: seq<string>, section: string)
    requires section !in expanded
    ensures Toggled(expanded, section) == expanded + [section]
  {
  }

  /** Toggling a present id removes every copy and keeps the order of the rest. */
  lemma TogglePresent(expanded: seq<string>, section: string, i: nat)
    requires i < |expanded| && expanded[i] == section
    ensures Toggled(expanded, section) == RemoveAll(expanded[..i], section) + RemoveAll(expanded[i + 1..], section)
    ensures multiset(Toggled(expanded, section)) == multiset(expanded)[section := 0]
  {
    var before, after := expanded[..i], expanded[i + 1..];
    assert expanded == before + ([section] + after);
    RemoveAllAppend(before, [section] + after, section);
    assert RemoveAll([section] + after, section) == RemoveAll(after, section) by {
      assert ([section] + after)[1..] == after;
    }
    RemoveAllCount(expanded, section);
  }

  /** Toggling an absent id twice gives the list back. */
  lemma ToggleTwiceAbsent(expanded: seq<string>, section: string)
    requires section !in expanded
    ensures Toggled(Toggled(expanded, section), section) == expanded
  {
    RemoveAllAppend(expanded, [section], section);
    assert RemoveAll([section], section) == [] by { assert [section][1..] == []; }
    RemoveAllAbsent(expanded, section);
  }

  /** Toggling a present id twice moves it, once, to the end. */
  lemma ToggleTwicePresent(expanded: seq<string>, section: string)
    requires section in expanded
    ensures Toggled(Toggled(expanded, section), section) == RemoveAll(expanded, section) + [section]
  {
  }

  /**
   * The section that the effect over `location.pathname` leaves active: the
   * tests run from '/juegos' to '/configuracion' and inside the first matching
   * one the later assignment wins.
   */
  function SectionFor(path: string): string
  {
    if Includes(path, "/juegos") then
      if Includes(path, "/social") then "social" else if Includes(path, "/comunicacion") then "comunicacion" else "juegos"
    else if Includes(path, "/progreso") then "progreso"
    else if Includes(path, "/recursos") then (if Includes(path, "/guias") then "guias" else "recursos")
    else if Includes(path, "/configuracion") then "configuracion"
    else "dashboard"
  }

  /**
   * The priority among the tests: '/juegos' first, with '/social' over
   * '/comunicacion' inside it, then '/progreso', then '/recursos' with its
   * '/guias', then '/configuracion'; a path matching none of them is the
   * dashboard, and only such a path is.  The clauses record the order in
   * which the tests of the chain take effect.
   */
  lemma SectionPriority(path: string)
    ensures var r := SectionFor(path);
      && (Includes(path, "/juegos") ==>
            r == (if Includes(path, "/social") then "social" else if Includes(path, "/comunicacion") then "comunicacion" else "juegos"))
      && (!Includes(path, "/juegos") && Includes(path, "/progreso") ==> r == "progreso")
      && (!Includes(path, "/juegos") && !Includes(path, "/progreso") && Includes(path, "/recursos") ==>
            r == (if Includes(path, "/guias") then "guias" else "recursos"))
      && (r == "configuracion" <==>
            !Includes(path, "/juegos") && !Includes(path, "/progreso") && !Includes(path, "/recursos") && Includes(path, "/configuracion"))
      && (r == "dashboard" <==>
            !Includes(path, "/juegos") && !Includes(path, "/progreso") && !Includes(path, "/recursos") && !Includes(path, "/configuracion"))
  {
  }

  /** Whatever the path, the active section is the id of a menu entry. */
  lemma SectionIsMenuId(path: string)
    ensures IsMenuId(SectionFor(path))
  {
    var r := SectionFor(path);
    var m := MenuItems;
    if r == "dashboard" { assert m[0].id == r; }
    else if r == "juegos" { assert m[1].id == r; }
    else if r == "comunicacion" { assert m[1].children[0].id == r && IsChildId(m[1], r); }
    else if r == "social" { assert m[1].children[1].id == r && IsChildId(m[1], r); }
    else if r == "progreso" { assert m[2].id == r; }
    else if r == "recursos" { assert m[3].id == r; }
    else if r == "guias" { assert m[3].children[0].id == r && IsChildId(m[3], r); }
    else { assert m[4].id == r; }
  }

  /** The sidebar's own state: the highlighted entry and the expanded sections. */
  class SidebarState {
    var activeSection: string
    var expandedSections: seq<string>

    constructor ()
      ensures activeSection == "dashboard" && expandedSections == ["juegos"]
    {
      activeSection := "dashboard";
      expandedSections := ["juegos"];
    }

    /** The effect run whenever the path changes. */
    method OnPathChange(path: string)
      modifies this
      ensures activeSection == SectionFor(path)
      ensures expandedSections == old(expandedSections)
    {
      if Includes(path, "/juegos") {
        activeSection := "juegos";
        if Includes(path, "/comunicacion") { activeSection := "comunicacion"; }
        if Includes(path, "/social") { activeSection := "social"; }
      } else if Includes(path, "/progreso") {
        activeSection := "progreso";
      } else if Includes(path, "/recursos") {
        activeSection := "recursos";
        if Includes(path, "/guias") { activeSection := "guias"; }
      } else if Includes(path, "/configuracion") {
        activeSection := "configuracion";
      } else {
        activeSection := "dashboard";
      }
    }

    method ToggleSection(section: string)
      modifies this
      ensures expandedSections == Toggled(old(expandedSections), section)
      ensures activeSection == old(activeSection)
    {
      if section in expandedSections {
        expandedSections := RemoveAll(expandedSections, section);
      } else {
        expandedSections := expandedSections + [section];
      }
    }

    /**
     * `handleMenuClick`: a section with children only opens or closes; a leaf
     * becomes active and its path, if it has a non-empty one, is where the
     * router navigates (an empty path is falsy and is not followed).
     */
    method HandleMenuClick(item: Entry, hasChildren: bool) returns (navigateTo: Option<string>)
      modifies this
      ensures hasChildren ==> expandedSections == Toggled(old(expandedSections), item.id)
      ensures hasChildren ==> activeSection == old(activeSection) && navigateTo == None
      ensures !hasChildren ==> activeSection == item.id
      ensures !hasChildren ==> (navigateTo.Some? <==> item.path.Some? && item.path.value != "")
      ensures navigateTo.Some? ==> navigateTo == item.path
      ensures !hasChildren ==> expandedSections == old(expandedSections)
    {
      if hasChildren {
        ToggleSection(item.id);
        navigateTo := None;
      } else {
        activeSection := item.id;
        if item.path.Some? && item.path.value != "" {
          navigateTo := item.path;
        } else {
          navigateTo := None;
        }
      }
    }
  }

  /**
   * A click on a child sets the highlight to the child, but the navigation that
   * follows reruns the path rule: 'cognitivo' hands the highlight back to
   * 'juegos'.
   */
  lemma CognitivoHighlightsJuegos()
    ensures SectionFor("/juegos/cognitivo") == "juegos"
  {
    var path := "/juegos/cognitivo";
    assert Includes(path, "/juegos") by {
      assert "/juegos" + "/cognitivo" == path;
      IncludesParts("/juegos", "/cognitivo");
    }
    assert !Includes(path, "/social") by { MissingChar(path, "/social", 'a'); }
    assert !Includes(path, "/comunicacion") by { MissingChar(path, "/comunicacion", 'm'); }
  }

  /** 'social' keeps its highlight after navigating to its path. */
  lemma SocialKeepsHighlight()
    ensures SectionFor("/juegos/social") == "social"
  {
    var path := "/juegos/social";
    assert Includes(path, "/juegos") && Includes(path, "/social") by {
      assert "/juegos" + "/social" == path;
      IncludesParts("/juegos", "/social");
    }
  }

  /** 'comunicacion' keeps its highlight after navigating to its path. */
  lemma ComunicacionKeepsHighlight()
    ensures SectionFor("/juegos/comunicacion") == "comunicacion"
  {
    var path := "/juegos/comunicacion";
    assert Includes(path, "/juegos") && Includes(path, "/comunicacion") by {
      assert "/juegos" + "/comunicacion" == path;
      IncludesParts("/juegos", "/comunicacion");
    }
    assert !Includes(path, "/social") by { MissingChar(path, "/social", 'l'); }
  }

  /** 'guias' keeps its highlight after navigating to its path. */
  lemma GuiasKeepsHighlight()
    ensures SectionFor("/recursos/guias") == "guias"
  {
    var path := "/recursos/guias";
    assert Includes(path, "/recursos") && Includes(path, "/guias") by {
      assert "/recursos" + "/guias" == path;
      IncludesParts("/recursos", "/guias");
    }
    assert !Includes(path, "/juegos") by { MissingChar(path, "/juegos", 'j'); }
    assert !Includes(path, "/progreso") by { MissingChar(path, "/progreso", 'p'); }
  }

  /** 'estadisticas' hands the highlight to its section 'progreso'. */
  lemma EstadisticasHighlightsProgreso()
    ensures SectionFor("/progreso/estadisticas") == "progreso"
  {
    var path := "/progreso/estadisticas";
    assert Includes(path, "/progreso") by {
      assert "/progreso" + "/estadisticas" == path;
      IncludesParts("/progreso", "/estadisticas");
    }
    assert !Includes(path, "/juegos") by { MissingChar(path, "/juegos", 'j'); }
  }

  /** The dashboard path matches no section test. */
  lemma DashboardPath()
    ensures SectionFor("/dashboard") == "dashboard"
  {
    var path := "/dashboard";
    assert !Includes(path, "/juegos") by { MissingChar(path, "/juegos", 'j'); }
    assert !Includes(path, "/progreso") by { MissingChar(path, "/progreso", 'p'); }
    assert !Includes(path, "/recursos") by { MissingChar(path, "/recursos", 'u'); }
    assert !Includes(path, "/configuracion") by { MissingChar(path, "/configuracion", 'c'); }
  }
}
