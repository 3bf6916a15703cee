/** The admin's contact-message inbox (src/pages/admin/MessagesList.tsx): the fetched
    `messages` rows and the delete that removes a message from the local list once the
    backend accepted it. */
module MessagesList {
  import opened Common
  import KeyedList

  /** A `messages` row, with the fields the table shows. */
  datatype Message = Message(
    id: string,
    name: string,
    email: string,
    subject: string,
    message: string,
    createdAt: string)

  function MessageKey(m: Message): string { m.id }

  const LoadFailedAlert := "Failed to load messages"
  const DeletedAlert := "Message deleted successfully!"
  const DeleteFailedAlert := "Failed to delete message"

  class MessagesPage {
    var messages: seq<Message>
    var loading: bool
    var alerts: seq<string>

    constructor ()
      ensures messages == [] && loading && alerts == []
    {
      messages := [];
      loading := true;
      alerts := [];
    }

    /** fetchMessages. `data` is the select's answer: an error keeps the list and
        alerts; otherwise the list becomes the rows, or [] when the answer carries no rows.
        Loading ends either way. */
    method FetchMessages(data: Result<Option<seq<Message>>>) returns (requests: seq<Request>)
      modifies this`messages, this`loading, this`alerts
      ensures requests == [Select("messages")] && !loading
      ensures data.Err? ==> messages == old(messages) && alerts == old(alerts) + [LoadFailedAlert]
      ensures data.Ok? ==> messages == (if data.value.Some? then data.value.value else []) && alerts == old(alerts)
    {
      loading := true;
      requests := [Select("messages")];
      if data.Err? {
        alerts := alerts + [LoadFailedAlert];
      } else {
        messages := if data.value.Some? then data.value.value else [];
      }
      loading := false;
    }

    /** handleDelete: a declined confirm sends nothing and changes nothing; otherwise one
        delete request, after which the message leaves the list only on success. */
    method HandleDelete(id: string, confirmed: bool, outcome: Outcome) returns (requests: seq<Request>)
      modifies this`messages, this`alerts
      ensures !confirmed ==> requests == [] && messages == old(messages) && alerts == old(alerts)
      ensures confirmed ==> requests == [Delete("messages", id)]
      ensures confirmed && outcome == Succeeded ==>
        messages == KeyedList.WithoutId(old(messages), MessageKey, id) && alerts == old(alerts) + [DeletedAlert]
      ensures confirmed && outcome == Failed ==>
        messages == old(messages) && alerts == old(alerts) + [DeleteFailedAlert]
    {
      requests := [];
      if !confirmed {
        return;
      }
      requests := [Delete("messages", id)];
      if outcome == Failed {
        alerts := alerts + [DeleteFailedAlert];
        return;
      }
      messages := KeyedList.WithoutId(messages, MessageKey, id);
      alerts := alerts + [DeletedAlert];
    }
  }
}
