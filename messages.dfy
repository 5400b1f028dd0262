/**
 * The Messages page: the conversation search, the lookup of the selected
 * conversation, and the guarded send that clears the draft.
 */
module Messages {
  import opened Wrappers
  import opened Seqs
  import opened Text

  datatype Message = Message(id: string, senderId: string, content: string, timestamp: string, isRead: bool)

  datatype Seller = Seller(name: string, avatar: string, initials: string, isOnline: bool)

  datatype Gig = Gig(title: string, orderNumber: string)

  datatype Conversation = Conversation(
    id: string,
    seller: Seller,
    gig: Gig,
    lastMessage: string,
    lastMessageTime: string,
    unreadCount: nat,
    messages: seq<Message>)

  /** The lowercased query occurs in the lowercased seller name or gig title. */
  predicate MatchesSearch(c: Conversation, query: string) {
    var q := Lower(query);
    Contains(Lower(c.seller.name), q) || Contains(Lower(c.gig.title), q)
  }

  /**
   * `filteredConversations`: the conversations the search keeps, in their
   * original order; an empty search keeps them all.
   */
  function FilteredConversations(cs: seq<Conversation>, query: string): (r: seq<Conversation>)
    ensures forall c :: c in r <==> c in cs && MatchesSearch(c, query)
    ensures IsSubseq(r, cs)
    ensures forall c :: multiset(r)[c] == if MatchesSearch(c, query) then multiset(cs)[c] else 0
    ensures query == "" ==> r == cs
  {
    var p := (c: Conversation) => MatchesSearch(c, query);
    FilterIsSubseq(cs, p);
    FilterCounts(cs, p);
    if query == "" then
      forall c | c in cs ensures p(c) {
        assert Lower(query) == "";
        ContainsEmpty(Lower(c.seller.name));
      }
      FilterAll(cs, p);
      Filter(cs, p)
    else Filter(cs, p)
  }

  /**
   * `conversations.find(c => c.id === selectedConversation)`: the first
   * conversation with the selected id; none when nothing is selected (a
   * `null` selection equals no id) or no conversation has that id.
   */
  function FindConversation(cs: seq<Conversation>, selected: Option<string>): (r: Option<Conversation>)
    ensures r.None? <==> forall i :: 0 <= i < |cs| ==> Some(cs[i].id) != selected
    ensures r.Some? ==> Some(r.value.id) == selected
    ensures r.Some? ==> exists i :: 0 <= i < |cs| && cs[i] == r.value && forall j :: 0 <= j < i ==> Some(cs[j].id) != selected
  {
    if cs == [] then None
    else if Some(cs[0].id) == selected then
      assert cs[0] == cs[0];
      Some(cs[0])
    else
      var r := FindConversation(cs[1..], selected);
      if r.Some? then
        ghost var i :| 0 <= i < |cs[1..]| && cs[1..][i] == r.value && forall j :: 0 <= j < i ==> Some(cs[1..][j].id) != selected;
        assert cs[i + 1] == r.value;
        assert forall j :: 0 <= j < i + 1 ==> Some(cs[j].id) != selected by {
          forall j | 0 <= j < i + 1 ensures Some(cs[j].id) != selected {
            if j > 0 {
              assert cs[j] == cs[1..][j - 1];
            }
          }
        }
        r
      else
        assert forall i :: 0 <= i < |cs| ==> Some(cs[i].id) != selected by {
          forall i | 0 <= i < |cs| ensures Some(cs[i].id) != selected {
            if i > 0 {
              assert cs[i] == cs[1..][i - 1];
            }
          }
        }
        r
  }

  /** With nothing selected, no conversation is shown. */
  lemma NothingSelectedFindsNone(cs: seq<Conversation>)
    ensures FindConversation(cs, None).None?
  {
  }

  class MessagesPage {
    const conversations: seq<Conversation>
    var selectedConversation: Option<string>
    var newMessage: string
    var searchQuery: string

    /** The page opens on conversation "1", with an empty draft and no search. */
    constructor (cs: seq<Conversation>)
      ensures conversations == cs
      ensures selectedConversation == Some("1") && newMessage == "" && searchQuery == ""
    {
      conversations := cs;
      selectedConversation := Some("1");
      newMessage := "";
      searchQuery := "";
    }

    /**
     * `selectedConv`: a conversation of the whole list, not of the filtered
     * one, carrying the selected id; none exactly when no conversation has it.
     */
    function SelectedConv(): (r: Option<Conversation>)
      reads this
      ensures r.Some? ==> r.value in conversations && Some(r.value.id) == selectedConversation
      ensures r.None? <==> forall i :: 0 <= i < |conversations| ==> Some(conversations[i].id) != selectedConversation
    {
      FindConversation(conversations, selectedConversation)
    }

    /** A click on a conversation in the list. */
    method SelectConversation(id: string)
      modifies this`selectedConversation
      ensures selectedConversation == Some(id)
      ensures SelectedConv().Some? <==> exists i :: 0 <= i < |conversations| && conversations[i].id == id
    {
      selectedConversation := Some(id);
      if SelectedConv().None? {
        assert forall i :: 0 <= i < |conversations| ==> conversations[i].id != id by {
          forall i | 0 <= i < |conversations| ensures conversations[i].id != id {
            assert Some(conversations[i].id) != Some(id);
          }
        }
      }
    }

    /** The search box; the selected conversation stays whatever the search hides. */
    method SetSearchQuery(query: string)
      modifies this`searchQuery
      ensures searchQuery == query
      ensures SelectedConv() == old(SelectedConv())
    {
      searchQuery := query;
    }

    /** The draft box. */
    method SetNewMessage(text: string)
      modifies this`newMessage
      ensures newMessage == text
    {
      newMessage := text;
    }

    /**
     * `sendMessage`: does nothing when the trimmed draft is empty or no
     * conversation is selected; otherwise clears the draft. No conversation
     * changes either way.
     */
    method SendMessage() returns (sent: bool)
      modifies this`newMessage
      ensures sent <==> !Blank(old(newMessage)) && SelectedConv().Some?
      ensures sent ==> newMessage == ""
      ensures !sent ==> newMessage == old(newMessage)
    {
      TrimmedBlank(newMessage);
      if Trim(newMessage) == "" || SelectedConv().None? {
        return false;
      }
      newMessage := "";
      sent := true;
    }

    /** `handleKeyPress`: Enter without Shift sends; any other key does nothing. */
    method HandleKeyPress(key: string, shiftKey: bool) returns (sent: bool)
      modifies this`newMessage
      ensures sent <==> key == "Enter" && !shiftKey && !Blank(old(newMessage)) && SelectedConv().Some?
      ensures sent ==> newMessage == ""
      ensures !sent ==> newMessage == old(newMessage)
    {
      sent := false;
      if key == "Enter" && !shiftKey {
        sent := SendMessage();
      }
    }
  }
}
