/** The call-details modal (src/components/CallDetailsModal.tsx): its
    display helpers and the loading / error / details state of
    `fetchCallDetails`. */
module CallDetails {
  import opened Wrappers
  import opened Text
  import opened ApiService

  /** One line of the provider's transcript; `user` is the speaker role
      (`user`, `assistant`, `robot` or `agent-action`). */
  datatype TranscriptEntry = TranscriptEntry(id: int, created_at: string, text: string, user: string, c_id: string)

  /** The provider's record of a call, as far as the modal reads it. */
  datatype BlandDetails = BlandDetails(
    call_id: string,
    call_length: int,
    to: string,
    from: string,
    status: string,
    completed: bool,
    answered_by: string,
    recording_url: Option<string>,
    summary: string,
    concatenated_transcript: string,
    transcripts: seq<TranscriptEntry>)

  /** The details endpoint's answer (its untyped `localCall` and
      `responses` parts are not modelled). */
  datatype Details = Details(blandDetails: BlandDetails)

  // ---------------------------------------------------------------------
  // Display helpers
  // ---------------------------------------------------------------------

  /** `text` reads `M:SS`: the minutes `m` in decimal, a colon, then
      exactly two digits that read back as `s`. */
  ghost predicate ReadsAsClock(text: string, m: nat, s: nat)
  {
    && |text| >= 4 && text[|text| - 3] == ':'
    && text[..|text| - 3] == NatToString(m)
    && AllDigits(text[|text| - 2..]) && ParseNat(text[|text| - 2..]) == s
  }

  lemma ClockParts(minutes: string, seconds: string, m: nat, s: nat)
    requires minutes == NatToString(m)
    requires |seconds| == 2 && AllDigits(seconds) && ParseNat(seconds) == s
    ensures ReadsAsClock(minutes + ":" + seconds, m, s)
  {
    var text := minutes + ":" + seconds;
    assert text[|text| - 2..] == seconds;
    assert text[..|text| - 3] == minutes;
  }

  lemma ClockText(m: nat, s: nat)
    requires s < 60
    ensures ReadsAsClock(NatToString(m) + ":" + PadStart(NatToString(s), 2, '0'), m, s)
  {
    TwoDigits(s);
    ClockParts(NatToString(m), PadStart(NatToString(s), 2, '0'), m, s);
  }

  /** `formatDuration`: `M:SS`, whole minutes, a colon, and the remaining
      seconds padded with `0` to two characters. */
  function FormatDuration(seconds: int): (r: string)
    ensures seconds >= 0 ==> ReadsAsClock(r, seconds / 60, seconds % 60)
  {
    var r := IntToString(seconds / 60) + ":" + PadStart(IntToString(JsRemainder(seconds, 60)), 2, '0');
    if seconds >= 0 then ClockText(seconds / 60, seconds % 60); r else r
  }

  /** Distinct non-negative durations are displayed differently. */
  lemma FormatDurationInjective(a: nat, b: nat)
    requires FormatDuration(a) == FormatDuration(b)
    ensures a == b
  {
    NatToStringInjective(a / 60, b / 60);
  }

  const GreenBadge: string := "bg-green-100 text-green-800"
  const RedBadge: string := "bg-red-100 text-red-800"
  const YellowBadge: string := "bg-yellow-100 text-yellow-800"
  const BlueBadge: string := "bg-blue-100 text-blue-800"
  const GrayBadge: string := "bg-gray-100 text-gray-800"

  /** `getStatusColor`, compared case-insensitively. */
  function StatusColor(status: string): (r: string)
    ensures r == GreenBadge <==> Lower(status) == "completed"
    ensures r == RedBadge <==> Lower(status) == "failed"
    ensures r == YellowBadge <==> Lower(status) == "no-answer"
    ensures r == BlueBadge <==> Lower(status) !in ["completed", "failed", "no-answer"]
  {
    var s := Lower(status);
    if s == "completed" then GreenBadge
    else if s == "failed" then RedBadge
    else if s == "no-answer" then YellowBadge
    else BlueBadge
  }

  /** `getAnsweredByColor`, compared case-insensitively. */
  function AnsweredByColor(answeredBy: string): (r: string)
    ensures r == GreenBadge <==> Lower(answeredBy) == "human"
    ensures r == YellowBadge <==> Lower(answeredBy) == "voicemail"
    ensures r == GrayBadge <==> Lower(answeredBy) == "unknown"
    ensures r == BlueBadge <==> Lower(answeredBy) !in ["human", "voicemail", "unknown"]
  {
    var s := Lower(answeredBy);
    if s == "human" then GreenBadge
    else if s == "voicemail" then YellowBadge
    else if s == "unknown" then GrayBadge
    else BlueBadge
  }

  /** Both colourings depend only on the lower-cased value. */
  lemma ColoursIgnoreCase(value: string)
    ensures StatusColor(value) == StatusColor(Lower(value))
    ensures AnsweredByColor(value) == AnsweredByColor(Lower(value))
  {
    LowerIdempotent(value);
  }

  /** The transcript speaker label: the caller's own lines are the
      customer's, every other role is the assistant. */
  function SpeakerLabel(user: string): (r: string)
    ensures r == "Customer" <==> user == "user"
    ensures r == "Assistant" <==> user != "user"
  {
    if user == "user" then "Customer" else "Assistant"
  }

  // ---------------------------------------------------------------------
  // Modal state
  // ---------------------------------------------------------------------

  const FetchFailedMessage: string := "Failed to load call details"

  /** What the modal's content area shows. */
  datatype Screen = Closed | Spinner | ErrorPanel(message: string) | DetailsPanel(details: Details) | Blank

  /** The modal's props and state. `requested` lists the call ids whose
      details were requested, in order. */
  class DetailsModal {
    var callId: int
    var isOpen: bool
    var details: Option<Details>
    var loading: bool
    var error: Option<string>
    var requested: seq<int>
    /** Whether the effect on `[isOpen, callId]` has run once, so that later
        commits run it only when one of those props changed. */
    var effectRan: bool

    constructor (callId: int, isOpen: bool)
      ensures this.callId == callId && this.isOpen == isOpen
      ensures details == None && !loading && error == None && requested == []
      ensures !effectRan
    {
      this.callId, this.isOpen := callId, isOpen;
      details, loading, error, requested := None, false, None, [];
      effectRan := false;
    }

    /** The render: nothing when closed, else spinner, error, details or
        an empty area, in that order of precedence. */
    function View(): (r: Screen)
      reads this
      ensures r == Closed <==> !isOpen
      ensures r == Spinner <==> isOpen && loading
      ensures r.ErrorPanel? <==> isOpen && !loading && Truthy(error)
      ensures r.ErrorPanel? ==> r.message == error.value
      ensures r.DetailsPanel? <==> isOpen && !loading && !Truthy(error) && details.Some?
      ensures r.DetailsPanel? ==> r.details == details.value
      ensures r == Blank <==> isOpen && !loading && !Truthy(error) && details.None?
    {
      if !isOpen then Closed
      else if loading then Spinner
      else if Truthy(error) then ErrorPanel(error.value)
      else if details.Some? then DetailsPanel(details.value)
      else Blank
    }

    /** `fetchCallDetails` up to the request (also the Retry button). */
    method BeginFetch()
      modifies this
      ensures loading && error == None && requested == old(requested) + [callId]
      ensures View() == (if isOpen then Spinner else Closed)
      ensures callId == old(callId) && isOpen == old(isOpen) && details == old(details)
      ensures effectRan == old(effectRan)
    {
      loading := true;
      error := None;
      requested := requested + [callId];
    }

    /** A commit of the modal with the props `isOpen` and `callId`. The
        effect on `[isOpen, callId]` runs on the first commit and afterwards
        only when one of the two props changed; when it runs, details are
        requested only if the modal is open and the call id is non-zero. */
    method PropsChanged(isOpen: bool, callId: int) returns (fetching: bool)
      modifies this
      ensures this.isOpen == isOpen && this.callId == callId && effectRan
      ensures fetching <==>
        (!old(effectRan) || isOpen != old(this.isOpen) || callId != old(this.callId)) && isOpen && callId != 0
      ensures fetching ==> loading && error == None && requested == old(requested) + [callId]
      ensures !fetching ==> loading == old(loading) && error == old(error) && requested == old(requested)
      ensures details == old(details)
    {
      var depsChanged := !effectRan || isOpen != this.isOpen || callId != this.callId;
      this.isOpen, this.callId, effectRan := isOpen, callId, true;
      fetching := depsChanged && isOpen && callId != 0;
      if fetching {
        BeginFetch();
      }
    }

    /** `fetchCallDetails` after the request: keep the details or record
        the failure message; loading ends either way. A failure keeps the
        previous details, and a success does not clear an error left by an
        overlapping fetch. */
    method FinishFetch(reply: Reply<Details>)
      modifies this
      ensures !loading
      ensures reply.Answered? ==> details == Some(reply.data) && error == old(error)
      ensures reply.Rejected? ==> error == Some(FetchFailedMessage) && details == old(details)
      ensures isOpen && reply.Rejected? ==> View() == ErrorPanel(FetchFailedMessage)
      ensures isOpen && reply.Answered? && !Truthy(old(error)) ==> View() == DetailsPanel(reply.data)
      ensures callId == old(callId) && isOpen == old(isOpen) && requested == old(requested)
      ensures effectRan == old(effectRan)
    {
      match reply {
        case Answered(data) =>
          details := Some(data);
        case Rejected(_) =>
          error := Some(FetchFailedMessage);
      }
      loading := false;
    }
  }
}
