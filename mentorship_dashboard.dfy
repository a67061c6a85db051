/** The professional's side of mentorship (src/pages/Professional/
    MentorshipDashboardPage.tsx): the list of incoming requests read from
    browser storage, the request whose chat is open, accepting, declining,
    sending a chat message, the status filter and the open thread. */
module MentorshipDashboard {
  import opened Common

  datatype Status = Pending | Accepted | Declined
  datatype Sender = Mentee | Pro
  datatype Message = Message(from: Sender, text: string, ts: int)

  datatype Request = Request(
    id: string,
    name: string,
    topic: string,
    details: string,
    files: seq<string>,
    status: Status,
    messages: seq<Message>)

  datatype StatusFilter = All | Only(status: Status)

  /** `localStorage.getItem("ff_mentorship_requests")`: null, or a text and
      what JSON.parse made of it (None when it throws). */
  datatype StoredRequests = Missing | Text(raw: string, parsed: Option<seq<Request>>)

  /** An `acceptedId` is truthy when it is set and not the empty string. */
  predicate Truthy(v: Option<string>)
  {
    v.Some? && v.value != ""
  }

  /** readRequests: the parsed list when there is a non-empty text that
      parses, and [] in every other case. */
  function ReadRequests(s: StoredRequests): (r: seq<Request>)
    ensures s.Text? && s.raw != "" && s.parsed.Some? ==> r == s.parsed.value
    ensures !(s.Text? && s.raw != "" && s.parsed.Some?) ==> r == []
  {
    match s
    case Missing => []
    case Text(raw, parsed) =>
      if raw == "" then []
      else match parsed
        case None => []
        case Some(rs) => rs
  }

  function HasId(id: string): Request -> bool
  {
    (r: Request) => r.id == id
  }

  /** `requests.map(r => r.id === id ? { ...r, status } : r)` */
  function WithStatus(rs: seq<Request>, id: string, st: Status): (r: seq<Request>)
    ensures |r| == |rs|
    ensures forall i :: 0 <= i < |rs| ==> r[i] == if rs[i].id == id then rs[i].(status := st) else rs[i]
  {
    if rs == [] then [] else [if rs[0].id == id then rs[0].(status := st) else rs[0]] + WithStatus(rs[1..], id, st)
  }

  /** There is no transition guard: setting a status replaces whatever the
      earlier one was, so a declined request can be accepted and back. */
  lemma LastStatusWins(rs: seq<Request>, id: string, a: Status, b: Status)
    ensures WithStatus(WithStatus(rs, id, a), id, b) == WithStatus(rs, id, b)
  {
  }

  /** Appends m to the messages of the requests with that id. */
  function AppendMessage(rs: seq<Request>, id: string, m: Message): (r: seq<Request>)
    ensures |r| == |rs|
    ensures forall i :: 0 <= i < |rs| ==> r[i] == if rs[i].id == id then rs[i].(messages := rs[i].messages + [m]) else rs[i]
  {
    if rs == [] then []
    else [if rs[0].id == id then rs[0].(messages := rs[0].messages + [m]) else rs[0]] + AppendMessage(rs[1..], id, m)
  }

  /** currentThread: the messages of the first request with the accepted id;
      [] when no id is accepted or no request carries it. */
  function Thread(rs: seq<Request>, accepted: Option<string>): seq<Message>
  {
    if !Truthy(accepted) then []
    else match FindIndex(rs, HasId(accepted.value))
      case None => []
      case Some(i) => rs[i].messages
  }

  /** filtered: every request for "all", else those with the chosen status. */
  function Filtered(rs: seq<Request>, f: StatusFilter): (r: seq<Request>)
    ensures forall x :: x in r <==> x in rs && (f.All? || x.status == f.status)
  {
    match f
    case All => rs
    case Only(st) => Filter(rs, (x: Request) => x.status == st)
  }

  /** Changing nothing but statuses and messages keeps the ids, so the same
      request is found. */
  lemma {:induction false} FindSameIds(a: seq<Request>, b: seq<Request>, id: string)
    requires |a| == |b|
    requires forall i :: 0 <= i < |a| ==> a[i].id == b[i].id
    ensures FindIndex(a, HasId(id)) == FindIndex(b, HasId(id))
  {
    if a != [] {
      FindSameIds(a[1..], b[1..], id);
    }
  }

  /** Sending appends the message to the open thread, and to nothing else. */
  lemma SendExtendsThread(rs: seq<Request>, id: string, m: Message)
    requires id != ""
    ensures FindIndex(rs, HasId(id)).Some? ==> Thread(AppendMessage(rs, id, m), Some(id)) == Thread(rs, Some(id)) + [m]
    ensures FindIndex(rs, HasId(id)).None? ==> Thread(AppendMessage(rs, id, m), Some(id)) == []
  {
    FindSameIds(rs, AppendMessage(rs, id, m), id);
  }

  /** The three status filters split the list: their sizes add up to it. */
  lemma {:induction false} StatusFiltersPartition(rs: seq<Request>)
    ensures |Filtered(rs, Only(Pending))| + |Filtered(rs, Only(Accepted))| + |Filtered(rs, Only(Declined))| == |rs|
  {
    if rs != [] {
      StatusFiltersPartition(rs[1..]);
    }
  }

  class Dashboard {
    var requests: seq<Request>
    /** null is None. */
    var acceptedId: Option<string>
    var chatInput: string
    var filter: StatusFilter
    /** The list this page last wrote to storage; None before its first write. */
    var written: Option<seq<Request>>

    constructor(stored: StoredRequests)
      ensures requests == ReadRequests(stored)
      ensures acceptedId == None && chatInput == "" && filter == All && written == None
    {
      requests := ReadRequests(stored);
      acceptedId := None;
      chatInput := "";
      filter := All;
      written := None;
    }

    /** The polling interval's tick: the list is read from storage again,
        replacing whatever the page held. */
    method Poll(stored: StoredRequests)
      modifies this
      ensures requests == ReadRequests(stored)
      ensures acceptedId == old(acceptedId) && chatInput == old(chatInput)
      ensures filter == old(filter) && written == old(written)
    {
      requests := ReadRequests(stored);
    }

    function CurrentThread(): seq<Message>
      reads this
    {
      Thread(requests, acceptedId)
    }

    function FilteredRequests(): seq<Request>
      reads this
    {
      Filtered(requests, filter)
    }

    method TypeChat(s: string)
      modifies this
      ensures chatInput == s
      ensures requests == old(requests) && acceptedId == old(acceptedId)
      ensures filter == old(filter) && written == old(written)
    {
      chatInput := s;
    }

    method ChooseFilter(f: StatusFilter)
      modifies this
      ensures filter == f
      ensures requests == old(requests) && acceptedId == old(acceptedId)
      ensures chatInput == old(chatInput) && written == old(written)
    {
      filter := f;
    }

    method Accept(id: string)
      modifies this
      ensures acceptedId == Some(id)
      ensures requests == WithStatus(old(requests), id, Accepted) && written == Some(requests)
      ensures chatInput == old(chatInput) && filter == old(filter)
    {
      acceptedId := Some(id);
      requests := WithStatus(requests, id, Accepted);
      written := Some(requests);
    }

    method Decline(id: string)
      modifies this
      ensures requests == WithStatus(old(requests), id, Declined) && written == Some(requests)
      ensures acceptedId == if old(acceptedId) == Some(id) then None else old(acceptedId)
      ensures chatInput == old(chatInput) && filter == old(filter)
    {
      requests := WithStatus(requests, id, Declined);
      written := Some(requests);
      if acceptedId == Some(id) {
        acceptedId := None;
      }
    }

    /** send: nothing happens without a truthy accepted id and a non-blank
        input; otherwise the untrimmed input goes to the accepted request as
        a message from the professional, and the input is cleared. */
    method Send(now: int)
      modifies this
      ensures !Truthy(old(acceptedId)) || IsBlank(old(chatInput)) ==>
        requests == old(requests) && chatInput == old(chatInput) && written == old(written)
      ensures Truthy(old(acceptedId)) && !IsBlank(old(chatInput)) ==>
        requests == AppendMessage(old(requests), old(acceptedId).value, Message(Pro, old(chatInput), now)) &&
        written == Some(requests) && chatInput == ""
      ensures acceptedId == old(acceptedId) && filter == old(filter)
    {
      if !Truthy(acceptedId) || IsBlank(chatInput) {
        return;
      }
      requests := AppendMessage(requests, acceptedId.value, Message(Pro, chatInput, now));
      written := Some(requests);
      chatInput := "";
    }
  }
}
