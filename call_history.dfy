/** The call-history page (src/pages/CallHistoryPage.tsx): the tab and
    search filters, the display helpers, the counters and the handlers that
    update the page's state. */
module CallHistory {
  import opened Wrappers
  import opened Text
  import opened Seqs
  import opened CallTypes
  import opened ApiService

  // ---------------------------------------------------------------------
  // Tab and search filters
  // ---------------------------------------------------------------------

  datatype Tab = CompletedTab | ActiveTab

  /** The tab filter: the completed tab keeps the calls whose status is
      `Completed`, the active tab keeps all the others. */
  function TabKeeps(tab: Tab): Call -> bool
  {
    match tab
    case CompletedTab => (c: Call) => c.status == Completed
    case ActiveTab => (c: Call) => c.status != Completed
  }

  /** The search filter: the lower-cased term occurs in the lower-cased
      phone number, or in the origin number or provider call id when
      those are present. */
  predicate MatchesSearch(c: Call, term: string)
  {
    var t := Lower(term);
    || Contains(Lower(c.phoneNumber), t)
    || (c.fromNumber.Some? && Contains(Lower(c.fromNumber.value), t))
    || (c.blandCallId.Some? && Contains(Lower(c.blandCallId.value), t))
  }

  /** What the list shows for a tab and a search term. An empty term
      applies no search filter. */
  function Shown(tab: Tab, term: string): Call -> bool
  {
    (c: Call) => TabKeeps(tab)(c) && (term == "" || MatchesSearch(c, term))
  }

  /** The filter effect: reassigns the filtered list step by step, first
      by tab, then by search term when one is typed. */
  method FilterCalls(calls: seq<Call>, tab: Tab, searchTerm: string) returns (filtered: seq<Call>)
    ensures filtered == Filter(calls, Shown(tab, searchTerm))
    ensures forall c :: c in filtered <==>
      c in calls && TabKeeps(tab)(c) && (searchTerm == "" || MatchesSearch(c, searchTerm))
    ensures IsSubsequence(filtered, calls)
    ensures IsSubsequence(filtered, Filter(calls, TabKeeps(tab)))
    ensures searchTerm == "" ==> filtered == Filter(calls, TabKeeps(tab))
  {
    filtered := calls;
    if tab == CompletedTab {
      filtered := Filter(calls, (c: Call) => c.status == Completed);
    } else {
      filtered := Filter(calls, (c: Call) => c.status != Completed);
    }
    FilterExtensional(calls, TabKeeps(tab), (c: Call) => if tab == CompletedTab then c.status == Completed else c.status != Completed);
    ghost var byTab := filtered;
    assert byTab == Filter(calls, TabKeeps(tab));
    if searchTerm != "" {
      filtered := Filter(filtered, (c: Call) => MatchesSearch(c, searchTerm));
      FilterCompose(calls, TabKeeps(tab), (c: Call) => MatchesSearch(c, searchTerm), Shown(tab, searchTerm));
      FilterIsSubsequence(byTab, (c: Call) => MatchesSearch(c, searchTerm));
    } else {
      FilterExtensional(calls, TabKeeps(tab), Shown(tab, searchTerm));
      SubsequenceReflexive(filtered);
    }
    FilterIsSubsequence(calls, Shown(tab, searchTerm));
  }

  /** The search filter in terms of substring occurrences: a call matches
      exactly when the lower-cased term occurs somewhere in one of the three
      fields, an absent field never matching. */
  lemma MatchesSearchIff(c: Call, term: string)
    ensures MatchesSearch(c, term) <==> (
      || Occurs(Lower(c.phoneNumber), Lower(term))
      || (c.fromNumber.Some? && Occurs(Lower(c.fromNumber.value), Lower(term)))
      || (c.blandCallId.Some? && Occurs(Lower(c.blandCallId.value), Lower(term))))
  {
    var t := Lower(term);
    ContainsIff(Lower(c.phoneNumber), t);
    if c.fromNumber.Some? {
      ContainsIff(Lower(c.fromNumber.value), t);
    }
    if c.blandCallId.Some? {
      ContainsIff(Lower(c.blandCallId.value), t);
    }
  }

  /** The search ignores the case of the term. */
  lemma SearchIgnoresCase(c: Call, term: string)
    ensures MatchesSearch(c, term) == MatchesSearch(c, Lower(term))
  {
    LowerIdempotent(term);
  }

  // ---------------------------------------------------------------------
  // Counters
  // ---------------------------------------------------------------------

  function HasStatus(status: string): Call -> bool
  {
    (c: Call) => c.status == status
  }

  /** The statistics cards: how many calls have a given status. */
  function StatusCount(calls: seq<Call>, status: string): nat
  {
    |Filter(calls, HasStatus(status))|
  }

  /** The numbers shown on the two tab buttons. */
  function TabCount(calls: seq<Call>, tab: Tab): nat
  {
    |Filter(calls, TabKeeps(tab))|
  }

  /** The two tab counts add up to the total, and the completed tab shows
      as many calls as the Completed card counts. */
  lemma TabCountsSum(calls: seq<Call>)
    ensures TabCount(calls, CompletedTab) + TabCount(calls, ActiveTab) == |calls|
    ensures TabCount(calls, CompletedTab) == StatusCount(calls, Completed)
  {
    FilterPartition(calls, TabKeeps(CompletedTab), TabKeeps(ActiveTab));
    FilterExtensional(calls, TabKeeps(CompletedTab), HasStatus(Completed));
  }

  /** When every status is one of the three the type admits, the three
      status cards add up to the total card. */
  lemma {:induction false} StatusCountsSum(calls: seq<Call>)
    requires forall c :: c in calls ==> WellTyped(c)
    ensures StatusCount(calls, Completed) + StatusCount(calls, InProgress) + StatusCount(calls, NotAnswered) == |calls|
  {
    if calls != [] {
      StatusCountsSum(calls[1..]);
      assert calls[0] in calls;
    }
  }

  // ---------------------------------------------------------------------
  // Display helpers
  // ---------------------------------------------------------------------

  /** The shape `{m}m {s}s`. */
  function MinutesSeconds(m: nat, s: nat): string
  {
    NatToString(m) + "m " + NatToString(s) + "s"
  }

  /** `formatDuration`: an absent or zero duration shows as `0m 0s`;
      otherwise whole minutes (`Math.floor(d / 60)`) and the remainder. */
  function FormatDuration(duration: Option<int>): (r: string)
    ensures duration.None? ==> r == "0m 0s"
    ensures duration.Some? && duration.value >= 0 ==>
      r == MinutesSeconds(duration.value / 60, duration.value % 60)
  {
    if duration.None? || duration.value == 0 then "0m 0s"
    else IntToString(duration.value / 60) + "m " + IntToString(JsRemainder(duration.value, 60)) + "s"
  }

  /** Distinct non-negative durations are displayed differently. */
  lemma FormatDurationInjective(a: nat, b: nat)
    requires FormatDuration(Some(a)) == FormatDuration(Some(b))
    ensures a == b
  {
    var ma, sa := NatToString(a / 60), NatToString(a % 60);
    var mb, sb := NatToString(b / 60), NatToString(b % 60);
    assert ma + ['m'] + (" " + sa + "s") == MinutesSeconds(a / 60, a % 60);
    assert mb + ['m'] + (" " + sb + "s") == MinutesSeconds(b / 60, b % 60);
    assert forall i :: 0 <= i < |ma| ==> IsDigit(ma[i]);
    assert forall i :: 0 <= i < |mb| ==> IsDigit(mb[i]);
    SplitAtSeparator(ma, " " + sa + "s", mb, " " + sb + "s", 'm');
    assert sa == (" " + sa + "s")[1..|sa| + 1];
    assert sb == (" " + sb + "s")[1..|sb| + 1];
    NatToStringInjective(a / 60, b / 60);
    NatToStringInjective(a % 60, b % 60);
  }

  /** The badge class, icon and dot colour for a status. */
  datatype StatusStyle = StatusStyle(badge: string, icon: string, dot: string)

  const UnknownStyle: StatusStyle := StatusStyle("bg-gray-50 text-gray-700 border-gray-200", "?", "bg-gray-500")

  /** `getStatusConfig`: each of the three statuses has its own style; any
      other string falls back to the grey `?` style. */
  function StatusConfig(status: string): (r: StatusStyle)
    ensures r == UnknownStyle <==> !(status == Completed || status == InProgress || status == NotAnswered)
    ensures status == Completed ==> r.icon == "✓"
    ensures status == InProgress ==> r.icon == "⏳"
    ensures status == NotAnswered ==> r.icon == "✗"
  {
    if status == Completed then
      StatusStyle("bg-emerald-50 text-emerald-700 border-emerald-200", "✓", "bg-emerald-500")
    else if status == InProgress then
      StatusStyle("bg-amber-50 text-amber-700 border-amber-200", "⏳", "bg-amber-500")
    else if status == NotAnswered then
      StatusStyle("bg-red-50 text-red-700 border-red-200", "✗", "bg-red-500")
    else
      UnknownStyle
  }

  /** The style tells the three statuses apart. */
  lemma StatusConfigInjective(a: string, b: string)
    requires StatusConfig(a) != UnknownStyle && StatusConfig(a) == StatusConfig(b)
    ensures a == b
  {
  }

  /** `getCallIdShort`: `N/A` for an absent or empty id, otherwise at most
      the first eight characters of the id followed by `...`. */
  function ShortCallId(blandCallId: Option<string>): (r: string)
    ensures r == "N/A" <==> !Truthy(blandCallId)
    ensures Truthy(blandCallId) ==>
      && |r| - 3 == (if |blandCallId.value| < 8 then |blandCallId.value| else 8)
      && r[..|r| - 3] <= blandCallId.value
      && r[|r| - 3..] == "..."
  {
    if !Truthy(blandCallId) then "N/A"
    else
      var id := blandCallId.value;
      (if |id| < 8 then id else id[..8]) + "..."
  }

  // ---------------------------------------------------------------------
  // Sync error classification
  // ---------------------------------------------------------------------

  const AuthFailedMessage: string := "Authentication failed. Please login again."
  const ServerErrorMessage: string := "Server error during sync. Check backend logs."
  const SyncFailedPrefix: string := "Failed to sync with Bland.ai: "

  /** The message shown after a failed sync and whether the user is logged
      out and sent to the login page. */
  datatype SyncFailure = SyncFailure(message: string, logout: bool)

  function ClassifySyncError(e: HttpError): (r: SyncFailure)
    ensures r.logout <==> e.status == Some(401)
    ensures e.status == Some(401) ==> r.message == AuthFailedMessage
    ensures e.status == Some(500) ==> r.message == ServerErrorMessage
    ensures e.status != Some(401) && e.status != Some(500) ==> r.message == SyncFailedPrefix + e.message
  {
    if e.status == Some(401) then SyncFailure(AuthFailedMessage, true)
    else if e.status == Some(500) then SyncFailure(ServerErrorMessage, false)
    else SyncFailure(SyncFailedPrefix + e.message, false)
  }

  /** The message alone tells the user whether they were logged out. */
  lemma SyncMessageRevealsLogout(a: HttpError, b: HttpError)
    requires ClassifySyncError(a).message == ClassifySyncError(b).message
    ensures ClassifySyncError(a).logout == ClassifySyncError(b).logout
  {
    assert AuthFailedMessage[0] == 'A' && |AuthFailedMessage| != |ServerErrorMessage|;
    assert (SyncFailedPrefix + a.message)[0] == 'F' && (SyncFailedPrefix + b.message)[0] == 'F';
  }

  // ---------------------------------------------------------------------
  // Page state and handlers
  // ---------------------------------------------------------------------

  /** The body of a successful `/calls/clear`. */
  datatype ClearResult = ClearResult(message: string, deletedCount: int)

  /** The body of a successful `/calls/sync`. */
  datatype SyncCounts = SyncCounts(message: string, syncedCount: int, createdCount: int, updatedCount: int)

  function ClearedMessage(r: ClearResult): string
  {
    "Cleared " + IntToString(r.deletedCount) + " calls successfully"
  }

  function SyncedMessage(r: SyncCounts): string
  {
    "Sync completed: " + IntToString(r.syncedCount) + " synced, " + IntToString(r.createdCount)
      + " created, " + IntToString(r.updatedCount) + " updated"
  }

  const ClearFailedMessage: string := "Failed to clear calls"

  /** The page's component state. `route` is where the router has been
      sent; `logouts` counts calls of the auth context's `logout`. */
  class HistoryPage {
    var calls: seq<Call>
    var loading: bool
    var activeTab: Tab
    var searchTerm: string
    var filteredCalls: seq<Call>
    var isClearing: bool
    var isSyncing: bool
    var syncResult: string
    var route: string
    var logouts: nat

    /** The filter effect has run on the current calls, tab and term. */
    ghost predicate Valid()
      reads this
    {
      filteredCalls == Filter(calls, Shown(activeTab, searchTerm))
    }

    constructor (route: string)
      ensures Valid()
      ensures calls == [] && filteredCalls == [] && loading
      ensures activeTab == CompletedTab && searchTerm == ""
      ensures !isClearing && !isSyncing && syncResult == ""
      ensures this.route == route && logouts == 0
    {
      calls, filteredCalls, loading := [], [], true;
      activeTab, searchTerm := CompletedTab, "";
      isClearing, isSyncing, syncResult := false, false, "";
      this.route, logouts := route, 0;
    }

    method RunFilterEffect()
      modifies this`filteredCalls
      ensures Valid()
      ensures IsSubsequence(filteredCalls, calls)
    {
      filteredCalls := FilterCalls(calls, activeTab, searchTerm);
    }

    method SelectTab(tab: Tab)
      modifies this
      ensures Valid() && activeTab == tab
      ensures calls == old(calls) && searchTerm == old(searchTerm) && loading == old(loading)
      ensures isClearing == old(isClearing) && isSyncing == old(isSyncing) && syncResult == old(syncResult)
      ensures route == old(route) && logouts == old(logouts)
    {
      activeTab := tab;
      RunFilterEffect();
    }

    method SetSearchTerm(term: string)
      modifies this
      ensures Valid() && searchTerm == term
      ensures calls == old(calls) && activeTab == old(activeTab) && loading == old(loading)
      ensures isClearing == old(isClearing) && isSyncing == old(isSyncing) && syncResult == old(syncResult)
      ensures route == old(route) && logouts == old(logouts)
    {
      searchTerm := term;
      RunFilterEffect();
    }

    /** `fetchCalls`: a successful answer replaces the list, a failure keeps
        it; loading ends either way. */
    method FetchCalls(reply: Reply<seq<Call>>)
      modifies this
      ensures Valid() && !loading
      ensures calls == (if reply.Answered? then reply.data else old(calls))
      ensures activeTab == old(activeTab) && searchTerm == old(searchTerm)
      ensures isClearing == old(isClearing) && isSyncing == old(isSyncing) && syncResult == old(syncResult)
      ensures route == old(route) && logouts == old(logouts)
    {
      if reply.Answered? {
        calls := reply.data;
      }
      loading := false;
      RunFilterEffect();
    }

    /** `handleClearAll` up to the request: nothing happens unless the user
        confirms; then the clearing flag is raised. */
    method BeginClearAll(confirmed: bool) returns (proceed: bool)
      requires Valid()
      modifies this
      ensures Valid() && proceed == confirmed
      ensures isClearing == (confirmed || old(isClearing))
      ensures calls == old(calls) && activeTab == old(activeTab) && searchTerm == old(searchTerm)
      ensures loading == old(loading) && isSyncing == old(isSyncing) && syncResult == old(syncResult)
      ensures route == old(route) && logouts == old(logouts)
    {
      proceed := confirmed;
      if confirmed {
        isClearing := true;
      }
    }

    /** `handleClearAll` after the request: report the count and refresh the
        list, or report the failure; the clearing flag drops either way. */
    method FinishClearAll(reply: Reply<ClearResult>, refresh: Reply<seq<Call>>)
      requires Valid()
      modifies this
      ensures Valid() && !isClearing
      ensures syncResult == (if reply.Answered? then ClearedMessage(reply.data) else ClearFailedMessage)
      ensures calls == (if reply.Answered? && refresh.Answered? then refresh.data else old(calls))
      ensures loading == (reply.Rejected? && old(loading))
      ensures activeTab == old(activeTab) && searchTerm == old(searchTerm) && isSyncing == old(isSyncing)
      ensures route == old(route) && logouts == old(logouts)
    {
      match reply {
        case Answered(result) =>
          syncResult := ClearedMessage(result);
          FetchCalls(refresh);
        case Rejected(_) =>
          syncResult := ClearFailedMessage;
      }
      isClearing := false;
    }

    /** `handleSyncWithBlandAi` up to the request. */
    method BeginSync()
      requires Valid()
      modifies this
      ensures Valid() && isSyncing && syncResult == ""
      ensures calls == old(calls) && activeTab == old(activeTab) && searchTerm == old(searchTerm)
      ensures loading == old(loading) && isClearing == old(isClearing)
      ensures route == old(route) && logouts == old(logouts)
    {
      isSyncing := true;
      syncResult := "";
    }

    /** `handleSyncWithBlandAi` after the request: report the counts and
        refresh the list, or classify the failure, logging the user out and
        going to `/login` on a 401; the syncing flag drops either way. */
    method FinishSync(reply: Reply<SyncCounts>, refresh: Reply<seq<Call>>)
      requires Valid()
      modifies this
      ensures Valid() && !isSyncing
      ensures reply.Answered? ==> syncResult == SyncedMessage(reply.data)
      ensures reply.Rejected? ==> syncResult == ClassifySyncError(reply.error).message
      ensures calls == (if reply.Answered? && refresh.Answered? then refresh.data else old(calls))
      ensures loading == (reply.Rejected? && old(loading))
      ensures reply.Rejected? && reply.error.status == Some(401) ==> route == LoginPath && logouts == old(logouts) + 1
      ensures !(reply.Rejected? && reply.error.status == Some(401)) ==> route == old(route) && logouts == old(logouts)
      ensures activeTab == old(activeTab) && searchTerm == old(searchTerm) && isClearing == old(isClearing)
    {
      match reply {
        case Answered(counts) =>
          syncResult := SyncedMessage(counts);
          FetchCalls(refresh);
        case Rejected(error) =>
          var failure := ClassifySyncError(error);
          syncResult := failure.message;
          if failure.logout {
            logouts := logouts + 1;
            route := LoginPath;
          }
      }
      isSyncing := false;
    }
  }
}
