/** The chat window component of the browser client: its message list, its
    typing-indicator list with the delayed clear of each entry, and the draft
    in the input box, together with the socket events it emits. */
module ChatClient {
  import opened Wrappers
  import opened JsText
  import E = Events

  /** The user id the client puts in its own typing events. */
  const CurrentUser: string := "current-user"

  /** `s.filter(id => id !== x)`. */
  function Without(s: seq<string>, x: string): (r: seq<string>)
    ensures |r| <= |s|
  {
    if s == [] then []
    else (if s[0] == x then [] else [s[0]]) + Without(s[1..], x)
  }

  /** The filter removes every occurrence of `x` and keeps every other entry
      as often as it occurred. */
  lemma {:induction false} WithoutContents(s: seq<string>, x: string)
    ensures x !in Without(s, x)
    ensures forall y :: y in Without(s, x) <==> y in s && y != x
    ensures multiset(Without(s, x)) == multiset(s)[x := 0]
    ensures x !in s ==> Without(s, x) == s
  {
    if s != [] {
      WithoutContents(s[1..], x);
      assert s == [s[0]] + s[1..];
    }
  }

  /** Filtering keeps the order of what remains: it distributes over concatenation. */
  lemma {:induction false} WithoutAppend(a: seq<string>, b: seq<string>, x: string)
    ensures Without(a + b, x) == Without(a, x) + Without(b, x)
  {
    if a == [] {
      assert a + b == b;
    } else {
      var head := if a[0] == x then [] else [a[0]];
      assert (a + b)[0] == a[0] && (a + b)[1..] == a[1..] + b;
      calc {
        Without(a + b, x);
        head + Without(a[1..] + b, x);
        { WithoutAppend(a[1..], b, x); }
        head + (Without(a[1..], x) + Without(b, x));
        (head + Without(a[1..], x)) + Without(b, x);
        Without(a, x) + Without(b, x);
      }
    }
  }

  /** One expiry for a user clears every indicator entry of that user, also
      those that later typing events added, while entries of other users stay
      in their order. */
  lemma ExpiryClearsLaterEntries(before: seq<string>, u: string, v: string)
    requires u != v
    ensures Without(before + [u] + [v] + [u], u) == Without(before, u) + [v]
  {
    WithoutAppend(before + [u] + [v], [u], u);
    WithoutAppend(before + [u], [v], u);
    WithoutAppend(before, [u], u);
  }

  class ChatWindow {
    /** The `conversationId` prop, which the parent may change. */
    var conversationId: string
    var messages: seq<E.ChatMessage>
    /** The text in the input box (`newMessage`). */
    var draft: string
    var typingUsers: seq<string>
    /** The user ids of the typing timeouts not yet fired, in firing order:
        every timeout has the same delay, so they fire in the order set. */
    var pendingClears: seq<string>

    /** Every typing indicator shown has a timeout pending that will clear it. */
    ghost predicate Valid()
      reads this
    {
      forall u :: u in typingUsers ==> u in pendingClears
    }

    constructor (conversationId: string)
      ensures Valid()
      ensures this.conversationId == conversationId
      ensures messages == [] && draft == "" && typingUsers == [] && pendingClears == []
    {
      this.conversationId := conversationId;
      messages := [];
      draft := "";
      typingUsers := [];
      pendingClears := [];
    }

    /** `fetchMessages`: the fetched list replaces the messages; a failed
        request leaves them as they were. */
    method FetchMessages(fetched: HttpOutcome<seq<E.ChatMessage>>)
      requires Valid()
      modifies this
      ensures Valid()
      ensures messages == if fetched.Ok? then fetched.body else old(messages)
      ensures draft == old(draft) && typingUsers == old(typingUsers) && pendingClears == old(pendingClears)
      ensures conversationId == old(conversationId)
    {
      if fetched.Ok? {
        messages := fetched.body;
      }
    }

    /** The mount effect: with a conversation id, load its messages and emit
        'joinConversation'; without one, do nothing. */
    method Mount(fetched: HttpOutcome<seq<E.ChatMessage>>) returns (emitted: Option<E.ClientEvent>)
      requires Valid()
      modifies this
      ensures Valid()
      ensures conversationId == "" ==> emitted == None && messages == old(messages)
      ensures conversationId != "" ==> emitted == Some(E.JoinConversation(conversationId))
      ensures conversationId != "" ==> messages == if fetched.Ok? then fetched.body else old(messages)
      ensures draft == old(draft) && typingUsers == old(typingUsers) && pendingClears == old(pendingClears)
      ensures conversationId == old(conversationId)
    {
      emitted := None;
      if conversationId != "" {
        FetchMessages(fetched);
        emitted := Some(E.JoinConversation(conversationId));
      }
    }

    /** A render with a new `conversationId` prop. The effect depends on the id
        alone, so a render with the same id does nothing. For a different,
        non-empty id the messages are fetched again and 'joinConversation' is
        emitted for it. The old room is not left, and the typing list, the
        pending clears and the draft carry over from the previous conversation. */
    method ChangeConversation(newId: string, fetched: HttpOutcome<seq<E.ChatMessage>>)
      returns (emitted: Option<E.ClientEvent>)
      requires Valid()
      modifies this
      ensures Valid()
      ensures conversationId == newId
      ensures newId == old(conversationId) ==> emitted == None && messages == old(messages)
      ensures newId == "" ==> emitted == None && messages == old(messages)
      ensures newId != old(conversationId) && newId != "" ==> emitted == Some(E.JoinConversation(newId))
      ensures newId != old(conversationId) && newId != "" ==>
                messages == if fetched.Ok? then fetched.body else old(messages)
      ensures draft == old(draft) && typingUsers == old(typingUsers) && pendingClears == old(pendingClears)
    {
      if newId == conversationId {
        emitted := None;
        return;
      }
      conversationId := newId;
      emitted := Mount(fetched);
    }

    /** 'newMessage': the message goes at the end, earlier messages unchanged.
        The event's conversation id is not compared with this window's. */
    method HandleNewMessage(eventConversationId: string, message: E.ChatMessage)
      requires Valid()
      modifies this
      ensures Valid()
      ensures messages == old(messages) + [message]
      ensures draft == old(draft) && typingUsers == old(typingUsers) && pendingClears == old(pendingClears)
      ensures conversationId == old(conversationId)
    {
      messages := messages + [message];
    }

    /** 'userTyping': the user id goes at the end of the indicator list and a
        timeout to clear it is set. The event's conversation id is not compared
        with this window's. */
    method HandleUserTyping(userId: string, eventConversationId: string)
      requires Valid()
      modifies this
      ensures Valid()
      ensures typingUsers == old(typingUsers) + [userId]
      ensures pendingClears == old(pendingClears) + [userId]
      ensures messages == old(messages) && draft == old(draft) && conversationId == old(conversationId)
    {
      typingUsers := typingUsers + [userId];
      pendingClears := pendingClears + [userId];
    }

    /** The earliest pending typing timeout fires: every entry of its user
        leaves the indicator list, the others keep their order. */
    method FireTypingTimeout()
      requires Valid()
      requires pendingClears != []
      modifies this
      ensures Valid()
      ensures typingUsers == Without(old(typingUsers), old(pendingClears)[0])
      ensures old(pendingClears)[0] !in typingUsers
      ensures pendingClears == old(pendingClears)[1..]
      ensures messages == old(messages) && draft == old(draft) && conversationId == old(conversationId)
    {
      var u := pendingClears[0];
      typingUsers := Without(typingUsers, u);
      pendingClears := pendingClears[1..];
      WithoutContents(old(typingUsers), u);
      assert old(pendingClears) == [u] + pendingClears;
    }

    /** Submitting the form. A blank draft does nothing. Otherwise the draft
        is posted; on success the server's stored message is emitted with
        'sendMessage' and the draft is cleared, on failure nothing is emitted
        and the draft stays. The sender's own copy arrives later as a
        'newMessage' echo, not from here. */
    method SendMessage(saved: HttpOutcome<E.ChatMessage>)
      returns (posted: Option<string>, emitted: Option<E.ClientEvent>)
      requires Valid()
      modifies this
      ensures Valid()
      ensures AllWhitespace(old(draft)) ==> posted == None && emitted == None && draft == old(draft)
      ensures !AllWhitespace(old(draft)) ==> posted == Some(old(draft))
      ensures !AllWhitespace(old(draft)) && saved.Ok? ==>
                emitted == Some(E.SendMessage(conversationId, saved.body)) && draft == ""
      ensures !AllWhitespace(old(draft)) && saved.Failed? ==> emitted == None && draft == old(draft)
      ensures messages == old(messages) && typingUsers == old(typingUsers) && pendingClears == old(pendingClears)
      ensures conversationId == old(conversationId)
    {
      TrimEmptyIff(draft);
      if Trim(draft) == [] {
        posted, emitted := None, None;
        return;
      }
      posted := Some(draft);
      match saved
      case Ok(message) =>
        emitted := Some(E.SendMessage(conversationId, message));
        draft := "";
      case Failed =>
        emitted := None;
    }

    /** Every change of the input updates the draft and emits 'typing', with
        no debouncing. */
    method ChangeInput(value: string) returns (emitted: E.ClientEvent)
      requires Valid()
      modifies this
      ensures Valid()
      ensures draft == value
      ensures emitted == E.Typing(conversationId, CurrentUser)
      ensures messages == old(messages) && typingUsers == old(typingUsers) && pendingClears == old(pendingClears)
      ensures conversationId == old(conversationId)
    {
      draft := value;
      emitted := E.Typing(conversationId, CurrentUser);
    }
  }

  /** Two typing events from one user, then the first timeout fires: the
      indicator is gone although the second timeout is still pending. */
  method TypingExpiryScenario(userId: string) returns (shown: seq<string>, pending: seq<string>)
    ensures shown == [] && pending == [userId]
  {
    var w := new ChatWindow("42");
    w.HandleUserTyping(userId, "42");
    w.HandleUserTyping(userId, "42");
    assert w.typingUsers == [userId, userId] && w.pendingClears == [userId, userId];
    assert Without([userId, userId], userId) == [] by {
      assert [userId][1..] == [];
      assert Without([userId], userId) == [];
      assert [userId, userId][1..] == [userId];
    }
    w.FireTypingTimeout();
    shown, pending := w.typingUsers, w.pendingClears;
  }
}
