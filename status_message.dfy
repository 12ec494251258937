/**
 * The message board of examples/soroban/status_message: one message per
 * author. The `require_auth` of the author is a host call and is taken to
 * succeed.
 */
module StatusMessage {
  import opened Soroban

  class Board {
    /** The persistent map `messages`. */
    var messages: map<Address, string>

    constructor ()
      ensures messages == map[]
    {
      messages := map[];
    }

    /** `messages_get`: the author's message, `None` for an author who never posted. */
    function MessagesGet(author: Address): (r: Option<string>)
      reads this
      ensures r.None? <==> author !in messages
      ensures r.Some? ==> r.value == messages[author]
    {
      Get(messages, author)
    }

    /** `messages_set`: the author's message becomes `text`, replacing an earlier one; no other author's entry changes. */
    method MessagesSet(author: Address, text: string)
      modifies this
      ensures MessagesGet(author) == Some(text)
      ensures forall a :: a != author ==> MessagesGet(a) == old(MessagesGet(a))
      ensures messages.Keys == old(messages.Keys) + {author}
    {
      messages := messages[author := text];
    }
  }

  /** The status_message test: nothing for a stranger, and the later of two posts by one author wins. */
  method PostThenRepost() returns (before: Option<string>, first: Option<string>, later: Option<string>, stranger: Option<string>)
    ensures before == None
    ensures first == Some("hello")
    ensures later == Some("world")
    ensures stranger == None
  {
    var board := new Board();
    before := board.MessagesGet(1);
    board.MessagesSet(1, "hello");
    first := board.MessagesGet(1);
    board.MessagesSet(1, "world");
    later := board.MessagesGet(1);
    stranger := board.MessagesGet(2);
  }
}
