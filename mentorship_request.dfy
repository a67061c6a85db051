/** The mentee's side of mentorship
    (src/pages/Freelancer/MentorshipRequestPage.tsx): the list of the
    mentee's requests read from the backend, the request form with its
    attached file names, and the chat with the selected request, whose
    loaded messages are all shown as the professional's. Backend calls are
    parameters and each handler is one atomic step. */
module MentorshipRequest {
  import opened Common
  import opened Domain

  datatype ChatMessage = ChatMessage(from: string, text: string)

  /** One backend item. files and messages are None when falsy (null or
      undefined); any truthy value is taken over as it is. */
  datatype RequestItem = RequestItem(
    id: JsString,
    uuid: JsString,
    pk: JsString,
    name: JsString,
    topic: JsString,
    details: JsString,
    files: Option<seq<string>>,
    status: JsString,
    messages: Option<seq<ChatMessage>>)

  /** A request as the page holds it. name, topic and details are copied
      without a default; status is not validated. */
  datatype MenteeRequest = MenteeRequest(
    id: string,
    name: JsString,
    topic: JsString,
    details: JsString,
    files: seq<string>,
    status: string,
    messages: seq<ChatMessage>)

  const Pending: string := "pending"

  function Normalize(r: RequestItem): (q: MenteeRequest)
    ensures q.id == PickId(r.id, r.uuid, r.pk)
    ensures q.name == r.name && q.topic == r.topic && q.details == r.details
    ensures q.files == (if r.files.Some? then r.files.value else [])
    ensures q.status == TextOr(r.status, Pending) && q.status != ""
    ensures q.messages == (if r.messages.Some? then r.messages.value else [])
  {
    MenteeRequest(PickId(r.id, r.uuid, r.pk), r.name, r.topic, r.details,
                  OrElse(r.files, []), TextOr(r.status, Pending), OrElse(r.messages, []))
  }

  /** The list the load sets: item by item, or [] when the response is not
      an array (None). */
  function NormalizeAll(data: Option<seq<RequestItem>>): (rs: seq<MenteeRequest>)
    ensures data.None? ==> rs == []
    ensures data.Some? ==> |rs| == |data.value|
    ensures data.Some? ==> forall i :: 0 <= i < |rs| ==> rs[i] == Normalize(data.value[i])
  {
    match data
    case None => []
    case Some(items) => seq(|items|, i requires 0 <= i < |items| => Normalize(items[i]))
  }

  /** A request without a status is pending. */
  lemma MissingStatusIsPending(r: RequestItem)
    requires !IsTruthy(r.status)
    ensures Normalize(r).status == Pending
  {
  }

  // ---------------------------------------------------------------------
  // Chat
  // ---------------------------------------------------------------------

  datatype Speaker = You | Pro

  datatype ChatLine = ChatLine(from: Speaker, text: string)

  /** A message as getRequestMessages returns it; the sender is ignored. */
  datatype LoadedMessage = LoadedMessage(sender: Option<string>, text: string)

  /** The loaded thread: the condition on the sender chooses "pro" on both
      branches, so every message is shown as the professional's. */
  function LoadedChat(data: Option<seq<LoadedMessage>>): (c: seq<ChatLine>)
    ensures data.None? ==> c == []
    ensures data.Some? ==> |c| == |data.value|
    ensures data.Some? ==> forall i :: 0 <= i < |c| ==> c[i] == ChatLine(Pro, data.value[i].text)
    ensures forall i :: 0 <= i < |c| ==> c[i].from == Pro
  {
    match data
    case None => []
    case Some(ms) => seq(|ms|, i requires 0 <= i < |ms| => ChatLine(Pro, ms[i].text))
  }

  /** The mentee's own messages, once reloaded, are indistinguishable from
      the professional's. */
  lemma OwnMessageReadBackAsPro(mine: string, senderId: string)
    ensures LoadedChat(Some([LoadedMessage(Some(senderId), mine)])) == [ChatLine(Pro, mine)]
  {
  }

  // ---------------------------------------------------------------------
  // Submitting a request
  // ---------------------------------------------------------------------

  /** What submitRequest passes to addRequest. */
  datatype NewRequest = NewRequest(name: string, topic: string, details: string, files: seq<string>)

  const Anonymous: string := "Anonymous"

  /** `user?.name || "Anonymous"` */
  function RequesterName(user: Option<User>): (n: string)
    ensures user.Some? && user.value.name != "" ==> n == user.value.name
    ensures !(user.Some? && user.value.name != "") ==> n == Anonymous
    ensures n != ""
  {
    if user.Some? && user.value.name != "" then user.value.name else Anonymous
  }

  class RequestPage {
    var requests: seq<MenteeRequest>
    var topic: string
    var details: string
    var files: seq<string>
    var message: string
    /** null is None. */
    var activeRequestId: Option<string>
    var chat: seq<ChatLine>

    constructor()
      ensures requests == [] && topic == "" && details == "" && files == []
      ensures message == "" && activeRequestId == None && chat == []
    {
      requests := [];
      topic := "";
      details := "";
      files := [];
      message := "";
      activeRequestId := None;
      chat := [];
    }

    /** load: a successful fetch replaces the list; a failed one keeps it. */
    method Load(res: Response<Option<seq<RequestItem>>>)
      modifies this
      ensures res.Ok? ==> requests == NormalizeAll(res.value)
      ensures res.Failed? ==> requests == old(requests)
      ensures topic == old(topic) && details == old(details) && files == old(files)
      ensures message == old(message) && activeRequestId == old(activeRequestId) && chat == old(chat)
    {
      if res.Ok? {
        requests := NormalizeAll(res.value);
      }
    }

    method TypeForm(t: string, d: string, m: string)
      modifies this
      ensures topic == t && details == d && message == m
      ensures requests == old(requests) && files == old(files)
      ensures activeRequestId == old(activeRequestId) && chat == old(chat)
    {
      topic := t;
      details := d;
      message := m;
    }

    /** handleFileSelect: no file list changes nothing; otherwise the new
      names follow the earlier ones, in order. */
    method HandleFileSelect(names: Option<seq<string>>)
      modifies this
      ensures names.None? ==> files == old(files)
      ensures names.Some? ==> files == old(files) + names.value
      ensures files[..|old(files)|] == old(files)
      ensures requests == old(requests) && topic == old(topic) && details == old(details)
      ensures message == old(message) && activeRequestId == old(activeRequestId) && chat == old(chat)
    {
      if names.None? {
        return;
      }
      files := files + names.value;
    }

    /** submitRequest: nothing unless topic and details are both non-blank;
      otherwise the untrimmed form is sent under the user's name or
      "Anonymous", the list is reloaded after a successful create, and the
      form is reset whether or not the create succeeded, since addRequest
      swallows its error. */
    method SubmitRequest(user: Option<User>, created: bool, reload: Response<Option<seq<RequestItem>>>)
      returns (sent: Option<NewRequest>)
      modifies this
      ensures IsBlank(old(topic)) || IsBlank(old(details)) ==>
        sent == None && topic == old(topic) && details == old(details) && files == old(files) &&
        requests == old(requests)
      ensures !IsBlank(old(topic)) && !IsBlank(old(details)) ==>
        sent == Some(NewRequest(RequesterName(user), old(topic), old(details), old(files))) &&
        topic == "" && details == "" && files == []
      ensures !IsBlank(old(topic)) && !IsBlank(old(details)) ==>
        requests == (if created && reload.Ok? then NormalizeAll(reload.value) else old(requests))
      ensures message == old(message) && activeRequestId == old(activeRequestId) && chat == old(chat)
    {
      if IsBlank(topic) || IsBlank(details) {
        return None;
      }
      sent := Some(NewRequest(RequesterName(user), topic, details, files));
      if created {
        Load(reload);
      }
      topic := "";
      details := "";
      files := [];
    }

    /** sendMessage: blank input changes nothing; otherwise the untrimmed
      text joins the chat as the mentee's, is forwarded (and the list
      reloaded after success) only when a request is selected, and the
      input is cleared. */
    method SendMessage(delivered: bool, reload: Response<Option<seq<RequestItem>>>)
      returns (forwarded: Option<(string, string)>)
      modifies this
      ensures IsBlank(old(message)) ==>
        forwarded == None && chat == old(chat) && message == old(message) && requests == old(requests)
      ensures !IsBlank(old(message)) ==> chat == old(chat) + [ChatLine(You, old(message))] && message == ""
      ensures !IsBlank(old(message)) && IsTruthyId(old(activeRequestId)) ==>
        forwarded == Some((old(activeRequestId).value, old(message))) &&
        requests == (if delivered && reload.Ok? then NormalizeAll(reload.value) else old(requests))
      ensures !IsBlank(old(message)) && !IsTruthyId(old(activeRequestId)) ==>
        forwarded == None && requests == old(requests)
      ensures topic == old(topic) && details == old(details) && files == old(files)
      ensures activeRequestId == old(activeRequestId)
    {
      if IsBlank(message) {
        return None;
      }
      chat := chat + [ChatLine(You, message)];
      forwarded := None;
      if IsTruthyId(activeRequestId) {
        forwarded := Some((activeRequestId.value, message));
        if delivered {
          Load(reload);
        }
      }
      message := "";
    }

    /** Selecting a request. The message effect depends on the selected id
      only, so selecting the request that is already selected runs nothing
      and the chat stays as it is. Otherwise: with no id nothing is loaded;
      a failed load keeps the chat; else the chat becomes the loaded
      thread. */
    method SelectRequest(id: Option<string>, msgs: Response<Option<seq<LoadedMessage>>>)
      modifies this
      ensures activeRequestId == id
      ensures id == old(activeRequestId) ==> chat == old(chat)
      ensures id != old(activeRequestId) && (!IsTruthyId(id) || msgs.Failed?) ==> chat == old(chat)
      ensures id != old(activeRequestId) && IsTruthyId(id) && msgs.Ok? ==> chat == LoadedChat(msgs.value)
      ensures requests == old(requests) && topic == old(topic) && details == old(details)
      ensures files == old(files) && message == old(message)
    {
      if id == activeRequestId {
        return;
      }
      activeRequestId := id;
      if !IsTruthyId(id) {
        return;
      }
      if msgs.Ok? {
        chat := LoadedChat(msgs.value);
      }
    }
  }

  /** `if (activeRequestId)`: set and not empty. */
  predicate IsTruthyId(v: Option<string>)
  {
    v.Some? && v.value != ""
  }
}
