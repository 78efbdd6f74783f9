/**
 * The sidebar's logic: the one-line preview under each chat's title, and the rename
 * dialog, a small state machine over the `renameId` and `renameValue` cells whose Save
 * hands the typed title to the provider's `renameChat` (recorded, not interpreted).
 */
module ChatSidebar {
  import opened Wrappers
  import opened ChatContext

  const PreviewLength: nat := 30
  const Ellipsis: string := "..."

  /**
   * The preview of a chat with these messages: nothing without a last message; its
   * text when at most 30 characters long; else its first 30 characters and "...".
   */
  function Preview(messages: seq<Message>): (r: Option<string>)
    ensures r.None? <==> messages == []
    ensures r.Some? ==> |r.value| <= PreviewLength + |Ellipsis|
    ensures r.Some? ==> var text := messages[|messages| - 1].text;
                        && (|text| <= PreviewLength ==> r.value == text)
                        && (|text| > PreviewLength ==> text[..PreviewLength] <= r.value && |r.value| == PreviewLength + 3)
  {
    if messages == [] then None
    else
      var text := messages[|messages| - 1].text;
      if |text| > PreviewLength then Some(text[..PreviewLength] + Ellipsis) else Some(text)
  }

  /** A text of at most 30 characters is shown as it is. */
  lemma PreviewShort(messages: seq<Message>, m: Message)
    requires |m.text| <= PreviewLength
    ensures Preview(messages + [m]) == Some(m.text)
  {
  }

  /** A longer text is cut to its first 30 characters and followed by "...": 33 in all. */
  lemma PreviewLong(messages: seq<Message>, m: Message)
    requires |m.text| > PreviewLength
    ensures Preview(messages + [m]) == Some(m.text[..PreviewLength] + Ellipsis)
    ensures |Preview(messages + [m]).value| == PreviewLength + |Ellipsis|
  {
  }

  /** Only the last message matters: the earlier ones never change the preview. */
  lemma PreviewOfLastOnly(earlier: seq<Message>, others: seq<Message>, m: Message)
    ensures Preview(earlier + [m]) == Preview(others + [m]) == Preview([m])
  {
  }

  /** A call the sidebar makes on the provider that the provider file does not define. */
  datatype SidebarCall = RenameChat(id: string, title: string) | ClearAllChats

  /** The sidebar's own state: the rename dialog's two cells, and the calls it has made. */
  class Sidebar {
    var renameId: Option<string>
    var renameValue: string
    var calls: seq<SidebarCall>

    /** The initial `useState` values: closed, an empty field. */
    constructor ()
      ensures renameId == None && renameValue == "" && calls == []
    {
      renameId := None;
      renameValue := "";
      calls := [];
    }

    /** `{renameId && ...}`: the dialog shows when the id is truthy (not null, not empty). */
    predicate IsOpen()
      reads this
    {
      renameId.Some? && renameId.value != ""
    }

    /** The edit button: open the dialog for the chat, pre-filled with its current title. */
    method Edit(c: Chat)
      modifies this
      ensures renameId == Some(c.id) && renameValue == c.title
      ensures c.id != "" ==> IsOpen()
      ensures calls == old(calls)
    {
      renameId := Some(c.id);
      renameValue := c.title;
    }

    /** The field's `onChange`: the typed text replaces the value, as typed. */
    method Type(value: string)
      modifies this
      ensures renameValue == value && renameId == old(renameId) && calls == old(calls)
    {
      renameValue := value;
    }

    /** Cancel: close the dialog without calling the provider. */
    method Cancel()
      modifies this
      ensures renameId == None && !IsOpen()
      ensures renameValue == old(renameValue) && calls == old(calls)
    {
      renameId := None;
    }

    /**
     * Save (only reachable while the dialog shows): one `renameChat` with the chat's id
     * and the value exactly as typed, no trimming and no emptiness check; then close.
     */
    method Save()
      requires IsOpen()
      modifies this
      ensures calls == old(calls) + [RenameChat(old(renameId).value, old(renameValue))]
      ensures renameId == None && !IsOpen() && renameValue == old(renameValue)
    {
      calls := calls + [RenameChat(renameId.value, renameValue)];
      renameId := None;
    }

    /** The clear-all button, outside the dialog: one `clearAllChats` call, whether or not the dialog shows. */
    method ClearAll()
      modifies this
      ensures calls == old(calls) + [ClearAllChats]
      ensures renameId == old(renameId) && renameValue == old(renameValue)
    {
      calls := calls + [ClearAllChats];
    }
  }
}
