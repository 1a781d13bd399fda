/** The page controls of components/ui/pagination.tsx: previous and next links with their
    disabled flags, and the "Page p of n" label. */
module Pagination {
  import opened Wrappers
  import opened Text

  datatype Controls = Controls(
    previousDisabled: bool,
    previousHref: string,
    caption: string,
    nextDisabled: bool,
    nextHref: string)

  /** The link to page `n`: `<baseUrl>?page=<n>`. */
  function PageHref(baseUrl: string, n: int): string
  {
    baseUrl + "?page=" + IntToString(n)
  }

  /** The controls for `page` of `totalPages`. */
  function Render(page: int, totalPages: int, baseUrl: string): (c: Controls)
    ensures c.previousDisabled <==> page <= 1
    ensures c.nextDisabled <==> page >= totalPages
  {
    Controls(page <= 1, PageHref(baseUrl, page - 1),
             "Page " + IntToString(page) + " of " + IntToString(totalPages),
             page >= totalPages, PageHref(baseUrl, page + 1))
  }

  /** `parseInt` on the digits a template literal writes for an integer. */
  function ReadInt(s: string): Option<int>
  {
    if |s| > 1 && s[0] == '-' && AllDigits(s[1..]) then Some(-(DecimalValue(s[1..]) as int))
    else if |s| > 0 && AllDigits(s) then Some(DecimalValue(s))
    else None
  }

  /** The `page` parameter of a link under `baseUrl`, as the page it leads to reads it. */
  function PageParam(href: string, baseUrl: string): Option<int>
  {
    var prefix := baseUrl + "?page=";
    if StartsWith(href, prefix) then ReadInt(href[|prefix|..]) else None
  }

  lemma ReadIntToString(i: int)
    ensures ReadInt(IntToString(i)) == Some(i)
  {
    if i < 0 {
      var s := IntToString(i);
      assert s[1..] == NatToString(-i);
      NatToStringRoundTrip(-i);
    } else {
      NatToStringRoundTrip(i);
    }
  }

  /** The caption reads "Page", the page, "of", the page count, separated by spaces, and both
      numbers read back as themselves. */
  lemma CaptionStatesPage(page: int, totalPages: int, baseUrl: string)
    ensures var words := Split(Render(page, totalPages, baseUrl).caption, ' ');
      && words == ["Page", IntToString(page), "of", IntToString(totalPages)]
      && ReadInt(words[1]) == Some(page)
      && ReadInt(words[3]) == Some(totalPages)
  {
    var words := ["Page", IntToString(page), "of", IntToString(totalPages)];
    IntToStringExcludes(page, ' ');
    IntToStringExcludes(totalPages, ' ');
    assert Render(page, totalPages, baseUrl).caption == Join(words, ' ') by {
      var n := IntToString(totalPages);
      assert Join([n], ' ') == n;
      assert ["of", n][1..] == [n];
      assert Join(["of", n], ' ') == "of " + n;
      assert [IntToString(page), "of", n][1..] == ["of", n];
      assert Join([IntToString(page), "of", n], ' ') == IntToString(page) + " of " + n;
      assert words[1..] == [IntToString(page), "of", n];
    }
    SplitJoin(words, ' ');
    ReadIntToString(page);
    ReadIntToString(totalPages);
  }

  /** Each link leads to the page one before or one after the current one. */
  lemma LinksLeadToNeighbours(page: int, totalPages: int, baseUrl: string)
    ensures PageParam(Render(page, totalPages, baseUrl).previousHref, baseUrl) == Some(page - 1)
    ensures PageParam(Render(page, totalPages, baseUrl).nextHref, baseUrl) == Some(page + 1)
  {
    var prefix := baseUrl + "?page=";
    var c := Render(page, totalPages, baseUrl);
    assert c.previousHref[|prefix|..] == IntToString(page - 1);
    assert c.nextHref[|prefix|..] == IntToString(page + 1);
    ReadIntToString(page - 1);
    ReadIntToString(page + 1);
  }

  /** From a page in range, every link that is enabled stays in range. */
  lemma EnabledLinksStayInRange(page: int, totalPages: int, baseUrl: string)
    requires 1 <= page <= totalPages
    ensures var c := Render(page, totalPages, baseUrl);
      && (!c.previousDisabled ==> 1 <= page - 1 <= totalPages)
      && (!c.nextDisabled ==> 1 <= page + 1 <= totalPages)
  {
  }
}
