/** How the sidebar decides which Trengo ticket it is showing
    (src/components/HubSpotSidebar.tsx): a query parameter first, then the
    ticket path in the parent page's URL, and only when that URL cannot be
    read, the sidebar's own path and finally a demo ticket. */
module Sidebar {
  import opened Js

  /** The literal part of the pattern `/\/tickets\/(\d+)/`. */
  const Marker: string := "/tickets/"

  /** The ticket shown when nothing else names one. */
  const DemoTicketId: string := "903563479"

  predicate IsDigit(c: char) {
    '0' <= c <= '9'
  }

  predicate AllDigits(s: string) {
    forall i :: 0 <= i < |s| ==> IsDigit(s[i])
  }

  /** `\d+` matched greedily at the start of `s`: its longest prefix of digits. */
  function DigitRun(s: string): (run: string)
    ensures run <= s
    ensures AllDigits(run)
    ensures |run| == |s| || !IsDigit(s[|run|])
    decreases |s|
  {
    if |s| > 0 && IsDigit(s[0]) then [s[0]] + DigitRun(s[1..]) else ""
  }

  /** The pattern matches at `k`: the marker starts there and a digit follows it. */
  predicate MatchesAt(s: string, k: int) {
    0 <= k && k + |Marker| < |s| && s[k..k + |Marker|] == Marker && IsDigit(s[k + |Marker|])
  }

  /** The leftmost position at or after `from` where the pattern matches. */
  function LeftmostMatch(s: string, from: nat): (k: Option<nat>)
    ensures k.Some? ==> from <= k.value && MatchesAt(s, k.value)
    ensures k.Some? ==> forall j :: from <= j < k.value ==> !MatchesAt(s, j)
    ensures k.None? ==> forall j :: from <= j ==> !MatchesAt(s, j)
    decreases |s| - from
  {
    if from + |Marker| >= |s| then None
    else if MatchesAt(s, from) then Some(from)
    else LeftmostMatch(s, from + 1)
  }

  /** `s.match(/\/tickets\/(\d+)/)?.[1]`: the digits after the leftmost marker
      that a digit follows. */
  function TicketInPath(s: string): (id: Option<string>)
    ensures id.None? <==> forall j :: 0 <= j ==> !MatchesAt(s, j)
    ensures id.Some? ==> id.value != "" && AllDigits(id.value)
  {
    match LeftmostMatch(s, 0)
    case None => None
    case Some(k) =>
      var tail := s[k + |Marker|..];
      assert tail[0] == s[k + |Marker|];
      Some(DigitRun(tail))
  }

  /** What a match yields: a non-empty run of digits that follows the marker
      at the leftmost place the pattern fits, and extends as far as the digits
      do. No match means the pattern fits nowhere. */
  lemma TicketInPathSpec(s: string)
    ensures TicketInPath(s).None? <==> forall j :: 0 <= j ==> !MatchesAt(s, j)
    ensures TicketInPath(s).Some? ==> (
      var id := TicketInPath(s).value;
      && id != "" && AllDigits(id)
      && exists k ::
           && MatchesAt(s, k) && (forall j :: 0 <= j < k ==> !MatchesAt(s, j))
           && id <= s[k + |Marker|..]
           && (k + |Marker| + |id| == |s| || !IsDigit(s[k + |Marker| + |id|])))
  {
    if TicketInPath(s).Some? {
      var k := LeftmostMatch(s, 0).value;
      var tail := s[k + |Marker|..];
      var id := DigitRun(tail);
      assert tail[0] == s[k + |Marker|];
      assert id != "" by {
        assert IsDigit(tail[0]);
      }
      assert |id| < |tail| ==> tail[|id|] == s[k + |Marker| + |id|];
    }
  }

  /** Whether `window.parent.location.href` could be read; a cross-origin
      parent makes the read throw. */
  datatype ParentUrl = Readable(href: string) | Unreadable

  /** A query parameter as `URLSearchParams.get` returns it: `None` for `null`.
      `||` and `if` take it only when it is a non-empty string. */
  predicate Given(param: Option<string>) {
    param.Some? && param.value != ""
  }

  /** The ticket id the sidebar settles on. */
  function DiscoverTicketId(ticketIdParam: Option<string>, ticketUnderscoreParam: Option<string>,
                            parent: ParentUrl, pathname: string): (id: string)
    ensures Given(ticketIdParam) ==> id == ticketIdParam.value
    ensures !Given(ticketIdParam) && Given(ticketUnderscoreParam) ==> id == ticketUnderscoreParam.value
    ensures !Given(ticketIdParam) && !Given(ticketUnderscoreParam) && parent.Readable? ==>
              (id == "" <==> TicketInPath(parent.href).None?)
              && (id != "" ==> Some(id) == TicketInPath(parent.href))
    ensures !Given(ticketIdParam) && !Given(ticketUnderscoreParam) && parent.Unreadable? ==>
              id == (if TicketInPath(pathname).Some? then TicketInPath(pathname).value else DemoTicketId)
  {
    var urlTicketId := if Given(ticketIdParam) then ticketIdParam else ticketUnderscoreParam;
    if Given(urlTicketId) then urlTicketId.value
    else match parent
      case Readable(href) =>
        TicketInPathSpec(href);
        (match TicketInPath(href) case Some(digits) => digits case None => "")
      case Unreadable =>
        (match TicketInPath(pathname) case Some(digits) => digits case None => DemoTicketId)
  }

  /** The sidebar's own path and the demo ticket matter only when the parent
      URL cannot be read: with a readable parent URL, whatever the path, the
      result is the same, and it is empty when that URL has no match. */
  lemma FallbacksOnlyWhenParentUnreadable(ticketIdParam: Option<string>, ticketUnderscoreParam: Option<string>,
                                              href: string, pathname1: string, pathname2: string)
    ensures DiscoverTicketId(ticketIdParam, ticketUnderscoreParam, Readable(href), pathname1)
         == DiscoverTicketId(ticketIdParam, ticketUnderscoreParam, Readable(href), pathname2)
    ensures !Given(ticketIdParam) && !Given(ticketUnderscoreParam) && TicketInPath(href).None? ==>
              DiscoverTicketId(ticketIdParam, ticketUnderscoreParam, Readable(href), pathname1) == ""
  {
  }

  /** An id that neither a query parameter nor the demo fallback supplied came
      from a URL or path match, so it is a non-empty run of digits. */
  lemma {:induction false} DiscoveredIdIsDigits(ticketIdParam: Option<string>, ticketUnderscoreParam: Option<string>,
                                                parent: ParentUrl, pathname: string)
    requires !Given(ticketIdParam) && !Given(ticketUnderscoreParam)
    ensures var id := DiscoverTicketId(ticketIdParam, ticketUnderscoreParam, parent, pathname);
      id == "" || id == DemoTicketId || AllDigits(id)
    ensures var id := DiscoverTicketId(ticketIdParam, ticketUnderscoreParam, parent, pathname);
      parent.Unreadable? && TicketInPath(pathname).Some? ==> id != "" && AllDigits(id)
  {
    match parent
    case Readable(href) => TicketInPathSpec(href);
    case Unreadable => TicketInPathSpec(pathname);
  }
}
