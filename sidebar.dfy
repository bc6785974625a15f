/**
 * The sidebar's navigation table and its active-entry test
 * (src/components/layout/Sidebar.tsx): an entry is active on its own path
 * and, except for the dashboard at `/`, on every path that starts with its
 * href.
 */
module Sidebar {
  import opened Text

  datatype NavItem = NavItem(name: string, href: string)

  /** `navigation` (lines 21-52), without the icons and descriptions. */
  const Navigation: seq<NavItem> := [
    NavItem("Dashboard", "/"),
    NavItem("Transacciones", "/transactions"),
    NavItem("Activos", "/assets"),
    NavItem("Análisis", "/analysis"),
    NavItem("Configuración", "/settings")]

  /** `isActive` (lines 94-95). */
  predicate IsActive(pathname: string, href: string) {
    pathname == href || (href != "/" && StartsWith(pathname, href))
  }

  /**
   * The dashboard entry is active only on `/`; any other href is active
   * exactly on the paths that start with it, with no `/` boundary required.
   */
  lemma ActiveIff(pathname: string, href: string)
    ensures href == "/" ==> (IsActive(pathname, href) <==> pathname == "/")
    ensures href != "/" ==> (IsActive(pathname, href) <==> StartsWith(pathname, href))
  {
    if pathname == href {
      assert pathname[..|href|] == href;
    }
  }

  /** A path starting with `/assets` but not below it still lights up Activos, and a new transaction lights up Transacciones. */
  lemma PrefixWithoutBoundary()
    ensures IsActive("/assetsx", Navigation[2].href)
    ensures IsActive("/transactions/new", Navigation[1].href)
    ensures !IsActive("/transactions/new", Navigation[0].href)
  {
    assert "/assetsx"[..7] == "/assets";
    assert "/transactions/new"[..13] == "/transactions";
  }

  /** Two prefixes of one path that are both at least `n` long agree on their first `n` characters. */
  lemma SharedPrefix(p: string, a: string, b: string, n: nat)
    requires StartsWith(p, a) && StartsWith(p, b) && n <= |a| && n <= |b|
    ensures a[..n] == b[..n]
  {
    assert a[..n] == p[..|a|][..n] == p[..n];
    assert b[..n] == p[..|b|][..n] == p[..n];
  }

  /** The non-root hrefs differ within their first three characters. */
  lemma HeadsDistinct(i: int, j: int)
    requires 1 <= i < |Navigation| && 1 <= j < |Navigation| && i != j
    ensures |Navigation[i].href| >= 3 && |Navigation[j].href| >= 3
    ensures Navigation[i].href[..3] != Navigation[j].href[..3]
  {
    var a := Navigation[i].href;
    var b := Navigation[j].href;
    assert a[..3] == [a[0], a[1], a[2]] && b[..3] == [b[0], b[1], b[2]];
  }

  /** For any path at most one navigation entry is active. */
  lemma AtMostOneActive(pathname: string, i: int, j: int)
    requires 0 <= i < |Navigation| && 0 <= j < |Navigation| && i != j
    ensures !(IsActive(pathname, Navigation[i].href) && IsActive(pathname, Navigation[j].href))
  {
    var a := Navigation[i].href;
    var b := Navigation[j].href;
    if IsActive(pathname, a) && IsActive(pathname, b) {
      ActiveIff(pathname, a);
      ActiveIff(pathname, b);
      if i == 0 {
        assert false;
      } else if j == 0 {
        assert false;
      } else {
        HeadsDistinct(i, j);
        SharedPrefix(pathname, a, b, 3);
        assert false;
      }
    }
  }
}
