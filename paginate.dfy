/**
 * The `Paginate` component: the list of page links under a product list.
 */
module Paginate {
  import opened Wrappers
  import opened Strings

  /** One `Pagination.Item` and the route its `LinkContainer` points to. */
  datatype PageLink = PageLink(number: int, to: string, active: bool)

  /** The route of page `n`: the admin product list, a keyword search, or the
      plain listing. A keyword counts only when it is a non-empty string. */
  function LinkTo(isAdmin: bool, keyword: Option<string>, n: nat): string {
    if !isAdmin then
      if keyword.Some? && keyword.value != "" then "/search/" + keyword.value + "/page/" + NatToString(n)
      else "/page/" + NatToString(n)
    else "/admin/productlist/" + NatToString(n)
  }

  /** The links for `pages` pages, or none (`null`) when there is at most one
      page. `isAdmin` defaults to false. */
  function Paginate(pages: int, page: int, isAdmin: Option<bool>, keyword: Option<string>): (r: Option<seq<PageLink>>)
    ensures r.None? <==> pages <= 1
    ensures r.Some? ==> |r.value| == pages
    ensures r.Some? ==> forall i :: 0 <= i < |r.value| ==> r.value[i].number == i + 1
    ensures r.Some? ==> forall i :: 0 <= i < |r.value| ==> (r.value[i].active <==> i + 1 == page)
    ensures r.Some? ==> forall i :: 0 <= i < |r.value| ==> r.value[i].to == LinkTo(isAdmin.GetOr(false), keyword, i + 1)
  {
    if pages <= 1 then None
    else
      var admin := isAdmin.GetOr(false);
      Some(seq(pages, x requires 0 <= x < pages => PageLink(x + 1, LinkTo(admin, keyword, x + 1), x + 1 == page)))
  }

  /** Exactly one link is active when the current page is among them, and
      none otherwise. */
  lemma ExactlyOneActive(pages: int, page: int, isAdmin: Option<bool>, keyword: Option<string>)
    requires pages > 1
    ensures var links := Paginate(pages, page, isAdmin, keyword).value;
      && (1 <= page <= pages ==> links[page - 1].active && forall i :: 0 <= i < |links| && links[i].active ==> i == page - 1)
      && (!(1 <= page <= pages) ==> forall i :: 0 <= i < |links| ==> !links[i].active)
  {
  }

  /** Distinct pages get distinct routes. */
  lemma RoutesDistinct(pages: int, page: int, isAdmin: Option<bool>, keyword: Option<string>, i: nat, j: nat)
    requires pages > 1 && i < j < pages
    ensures var links := Paginate(pages, page, isAdmin, keyword).value;
      links[i].to != links[j].to
  {
    var links := Paginate(pages, page, isAdmin, keyword).value;
    var admin := isAdmin.GetOr(false);
    var prefix := if !admin then
        if keyword.Some? && keyword.value != "" then "/search/" + keyword.value + "/page/" else "/page/"
      else "/admin/productlist/";
    assert links[i].to == prefix + NatToString(i + 1);
    assert links[j].to == prefix + NatToString(j + 1);
    if links[i].to == links[j].to {
      assert NatToString(i + 1) == (prefix + NatToString(i + 1))[|prefix|..];
      assert NatToString(j + 1) == (prefix + NatToString(j + 1))[|prefix|..];
      NatToStringInjective(i + 1, j + 1);
      assert false;
    }
  }

  /** Admin links ignore the keyword, and a missing `isAdmin` is false. */
  lemma AdminIgnoresKeyword(pages: int, page: int, keyword: Option<string>, other: Option<string>)
    ensures Paginate(pages, page, Some(true), keyword) == Paginate(pages, page, Some(true), other)
    ensures Paginate(pages, page, None, keyword) == Paginate(pages, page, Some(false), keyword)
  {
    if pages > 1 {
      var a, b := Paginate(pages, page, Some(true), keyword).value, Paginate(pages, page, Some(true), other).value;
      assert forall i :: 0 <= i < pages ==> a[i] == b[i];
      assert a == b;
    }
  }
}
