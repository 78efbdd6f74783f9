/**
 * The conversation registry of the chat provider: an ordered list of chats and a
 * nullable id of the current one. Every operation of the provider builds the new
 * list and current id purely from the old ones; the functions below are those builders,
 * and `ChatStore` is the provider's two state cells with one method per operation.
 * Clock values and generated ids are parameters.
 */
module ChatContext {
  import opened Wrappers

  datatype Sender = User | Bot

  /** A clock value (`Date`); the model never inspects it. */
  type Instant = int

  datatype Message = Message(id: string, text: string, sender: Sender, timestamp: Instant)

  datatype Chat = Chat(id: string, title: string, messages: seq<Message>, createdAt: Instant, updatedAt: Instant)

  /** The provider's two state cells: `chats` and `currentChatId`. */
  datatype Registry = Registry(chats: seq<Chat>, currentChatId: Option<string>)

  const GreetingId: string := "1"
  const GreetingText: string := "Hello! How can I help you today?"
  const TitlePrefix: string := "Chat "

  /** The greeting every new chat starts with. */
  function Greeting(now: Instant): Message {
    Message(GreetingId, GreetingText, Bot, now)
  }

  // ---------------------------------------------------------------------------
  // Queries and invariants

  predicate HasChat(chats: seq<Chat>, id: string) {
    exists i :: 0 <= i < |chats| && chats[i].id == id
  }

  /** The current id is null or names a chat of the registry. */
  predicate CurrentIdValid(reg: Registry) {
    reg.currentChatId.None? || HasChat(reg.chats, reg.currentChatId.value)
  }

  predicate DistinctIds(chats: seq<Chat>) {
    forall i, j :: 0 <= i < j < |chats| ==> chats[i].id != chats[j].id
  }

  predicate Consistent(reg: Registry) {
    CurrentIdValid(reg) && DistinctIds(reg.chats)
  }

  /**
   * `chats.find(chat => chat.id === id) || null`: the first chat whose id equals the
   * current id; a null current id matches nothing.
   */
  function FindChat(chats: seq<Chat>, id: Option<string>): (r: Option<Chat>)
    ensures r.None? <==> forall i :: 0 <= i < |chats| ==> Some(chats[i].id) != id
    ensures r.Some? ==> exists i :: 0 <= i < |chats| && chats[i] == r.value && Some(chats[i].id) == id &&
                                    forall k :: 0 <= k < i ==> Some(chats[k].id) != id
  {
    if chats == [] then None
    else if Some(chats[0].id) == id then Some(chats[0])
    else
      var r := FindChat(chats[1..], id);
      assert r.Some? ==> exists i :: 1 <= i < |chats| && chats[i] == r.value && Some(chats[i].id) == id &&
                                     forall k :: 0 <= k < i ==> Some(chats[k].id) != id by {
        if r.Some? {
          var i :| 0 <= i < |chats[1..]| && chats[1..][i] == r.value && Some(chats[1..][i].id) == id &&
                   forall k :: 0 <= k < i ==> Some(chats[1..][k].id) != id;
          assert forall k :: 1 <= k < i + 1 ==> chats[k] == chats[1..][k - 1];
        }
      }
      r
  }

  // ---------------------------------------------------------------------------
  // Operations

  /** `createChat`: id from the clock, a dated title and the greeting as its one message. */
  function CreateChat(id: string, dateLabel: string, now: Instant): (c: Chat)
    ensures c.id == id && c.title == TitlePrefix + dateLabel
    ensures |c.messages| == 1 && c.messages[0].sender == Bot
    ensures c.messages[0].id == GreetingId && c.messages[0].text == GreetingText
    ensures c.messages[0].timestamp == now
    ensures c.createdAt == now && c.updatedAt == now
  {
    Chat(id, TitlePrefix + dateLabel, [Greeting(now)], now, now)
  }

  /** `createNewChat`: the new chat goes to the front and becomes current. */
  function WithNewChat(reg: Registry, id: string, dateLabel: string, now: Instant): (r: Registry)
    ensures |r.chats| == |reg.chats| + 1
    ensures r.chats[0] == CreateChat(id, dateLabel, now) && r.chats[1..] == reg.chats
    ensures r.currentChatId == Some(id)
  {
    Registry([CreateChat(id, dateLabel, now)] + reg.chats, Some(id))
  }

  /** `selectChat`: sets the current id without looking the id up. */
  function Selected(reg: Registry, id: string): (r: Registry)
    ensures r.chats == reg.chats && r.currentChatId == Some(id)
    ensures CurrentIdValid(r) <==> HasChat(reg.chats, id)
  {
    reg.(currentChatId := Some(id))
  }

  /** `prev.filter(chat => chat.id !== id)`. */
  function WithoutChat(chats: seq<Chat>, id: string): (r: seq<Chat>)
    ensures |r| <= |chats|
    ensures forall c :: c in r <==> c in chats && c.id != id
  {
    if chats == [] then []
    else (if chats[0].id == id then [] else [chats[0]]) + WithoutChat(chats[1..], id)
  }

  /**
   * `deleteChat`: drop every chat with the id; when it was the current chat, the
   * current id moves to the first remaining chat, or to null when none remain.
   */
  function Deleted(reg: Registry, id: string): (r: Registry)
    ensures !HasChat(r.chats, id) && r.currentChatId != Some(id)
    ensures reg.currentChatId != Some(id) ==> r.currentChatId == reg.currentChatId
    ensures reg.currentChatId == Some(id) ==> (r.currentChatId.None? <==> r.chats == [])
    ensures reg.currentChatId == Some(id) && r.currentChatId.Some? ==> HasChat(r.chats, r.currentChatId.value)
  {
    var rest := WithoutChat(reg.chats, id);
    Registry(rest,
             if reg.currentChatId == Some(id) then (if |rest| > 0 then Some(rest[0].id) else None)
             else reg.currentChatId)
  }

  /**
   * `addMessage`: `prev.map(...)` appending the message to (and restamping) every chat
   * whose id equals the current id, leaving the others as they are.
   */
  function WithMessage(chats: seq<Chat>, current: Option<string>, m: Message, now: Instant): (r: seq<Chat>)
    ensures |r| == |chats|
    ensures forall i :: 0 <= i < |chats| ==> r[i].id == chats[i].id
    ensures forall i :: 0 <= i < |chats| && Some(chats[i].id) == current ==>
              r[i] == chats[i].(messages := chats[i].messages + [m], updatedAt := now)
    ensures forall i :: 0 <= i < |chats| && Some(chats[i].id) != current ==> r[i] == chats[i]
  {
    if chats == [] then []
    else
      var c := chats[0];
      var rest := WithMessage(chats[1..], current, m, now);
      var r := [if Some(c.id) == current then c.(messages := c.messages + [m], updatedAt := now) else c] + rest;
      assert forall i :: 1 <= i < |chats| ==> r[i] == rest[i - 1] && chats[i] == chats[1..][i - 1];
      r
  }

  /**
   * The first effect of the provider: with a non-empty saved value, the parsed chats
   * (when parsing succeeded) replace the list and the first becomes current; with no
   * saved value, one greeting chat is seeded and made current. `raw` is the stored
   * string (None when the key is absent), `parsed` the parsed and rebuilt chats (None
   * when parsing threw).
   */
  function Restored(reg: Registry, raw: Option<string>, parsed: Option<seq<Chat>>,
                    id: string, dateLabel: string, now: Instant): (r: Registry)
    ensures r == reg || r == Registry([CreateChat(id, dateLabel, now)], Some(id)) ||
            (parsed.Some? && r.chats == parsed.value)
    ensures r.chats != reg.chats && r.chats != [] ==> CurrentIdValid(r)
  {
    if raw.Some? && raw.value != "" then
      match parsed
      case None => reg
      case Some(cs) => if |cs| > 0 then Registry(cs, Some(cs[0].id)) else reg.(chats := cs)
    else
      var seeded := [CreateChat(id, dateLabel, now)];
      assert seeded[0].id == id;
      Registry(seeded, Some(id))
  }

  // ---------------------------------------------------------------------------
  // Lemmas: deletion

  /** Filtering distributes over concatenation: the kept chats stay in their order. */
  lemma {:induction false} WithoutConcat(a: seq<Chat>, b: seq<Chat>, id: string)
    ensures WithoutChat(a + b, id) == WithoutChat(a, id) + WithoutChat(b, id)
  {
    if a == [] {
      assert a + b == b;
    } else {
      assert (a + b)[1..] == a[1..] + b;
      WithoutConcat(a[1..], b, id);
    }
  }

  /** Deleting an id that no chat carries changes nothing. */
  lemma {:induction false} WithoutAbsent(chats: seq<Chat>, id: string)
    requires !HasChat(chats, id)
    ensures WithoutChat(chats, id) == chats
  {
    if chats != [] {
      assert !HasChat(chats[1..], id) by {
        forall i | 0 <= i < |chats[1..]| ensures chats[1..][i].id != id {
          assert chats[1..][i] == chats[i + 1];
        }
      }
      WithoutAbsent(chats[1..], id);
      assert chats == [chats[0]] + chats[1..];
    }
  }

  /** The first remaining chat is the first chat whose id differs. */
  lemma {:induction false} WithoutFirst(chats: seq<Chat>, id: string, j: nat)
    requires j < |chats| && chats[j].id != id
    requires forall k :: 0 <= k < j ==> chats[k].id == id
    ensures |WithoutChat(chats, id)| > 0 && WithoutChat(chats, id)[0] == chats[j]
  {
    if j > 0 {
      WithoutFirst(chats[1..], id, j - 1);
    }
  }

  /** A list with distinct ids splits into a head whose id is unique and a distinct tail. */
  lemma DistinctSplit(chats: seq<Chat>)
    requires DistinctIds(chats) && chats != []
    ensures DistinctIds(chats[1..])
    ensures forall c :: c in chats[1..] ==> c.id != chats[0].id
  {
  }

  /** A chat whose id no chat of a distinct list carries can go in front of it. */
  lemma DistinctCons(x: Chat, rest: seq<Chat>)
    requires DistinctIds(rest)
    requires forall c :: c in rest ==> c.id != x.id
    ensures DistinctIds([x] + rest)
  {
  }

  lemma {:induction false} WithoutDistinct(chats: seq<Chat>, id: string)
    requires DistinctIds(chats)
    ensures DistinctIds(WithoutChat(chats, id))
  {
    if chats != [] {
      DistinctSplit(chats);
      WithoutDistinct(chats[1..], id);
      var rest := WithoutChat(chats[1..], id);
      if chats[0].id != id {
        DistinctCons(chats[0], rest);
      } else {
        assert WithoutChat(chats, id) == rest;
      }
    }
  }

  /** Deleting a chat that is not current leaves the current id where it was. */
  lemma DeleteOtherKeepsCurrent(reg: Registry, id: string)
    requires reg.currentChatId != Some(id)
    ensures Deleted(reg, id).currentChatId == reg.currentChatId
    ensures forall c :: c in Deleted(reg, id).chats <==> c in reg.chats && c.id != id
  {
  }

  /**
   * Deleting the current chat moves the current id to the first chat with another id, and
   * to null exactly when no such chat exists.
   */
  lemma DeleteCurrentReassigns(reg: Registry, id: string)
    requires reg.currentChatId == Some(id)
    ensures Deleted(reg, id).currentChatId.None? <==> forall i :: 0 <= i < |reg.chats| ==> reg.chats[i].id == id
    ensures forall j :: 0 <= j < |reg.chats| && reg.chats[j].id != id && (forall k :: 0 <= k < j ==> reg.chats[k].id == id)
              ==> Deleted(reg, id).currentChatId == Some(reg.chats[j].id)
  {
    var rest := WithoutChat(reg.chats, id);
    forall j | 0 <= j < |reg.chats| && reg.chats[j].id != id && (forall k :: 0 <= k < j ==> reg.chats[k].id == id)
      ensures Deleted(reg, id).currentChatId == Some(reg.chats[j].id)
    {
      WithoutFirst(reg.chats, id, j);
    }
    if |rest| > 0 {
      assert rest[0] in rest;
    } else {
      forall i | 0 <= i < |reg.chats| ensures reg.chats[i].id == id {
        assert reg.chats[i] in reg.chats;
      }
    }
  }

  /** Deletion keeps the registry consistent, whichever chat is deleted. */
  lemma DeletePreserves(reg: Registry, id: string)
    requires Consistent(reg)
    ensures Consistent(Deleted(reg, id))
  {
    var r := Deleted(reg, id);
    WithoutDistinct(reg.chats, id);
    if reg.currentChatId == Some(id) {
      if |r.chats| > 0 {
        assert HasChat(r.chats, r.chats[0].id);
      }
    } else if reg.currentChatId.Some? {
      var i :| 0 <= i < |reg.chats| && reg.chats[i].id == reg.currentChatId.value;
      assert reg.chats[i] in r.chats;
      var k :| 0 <= k < |r.chats| && r.chats[k] == reg.chats[i];
      assert HasChat(r.chats, reg.currentChatId.value);
    }
  }

  // ---------------------------------------------------------------------------
  // Lemmas: creation, selection, appending

  /** A new chat with a fresh id keeps the registry consistent and is the current chat. */
  lemma CreatePreserves(reg: Registry, id: string, dateLabel: string, now: Instant)
    requires Consistent(reg) && !HasChat(reg.chats, id)
    ensures Consistent(WithNewChat(reg, id, dateLabel, now))
    ensures FindChat(WithNewChat(reg, id, dateLabel, now).chats, Some(id)) == Some(CreateChat(id, dateLabel, now))
  {
  }

  /** After selecting an id, the current chat is the first chat with that id, or none. */
  lemma SelectThenLookup(reg: Registry, id: string)
    ensures Selected(reg, id).chats == reg.chats
    ensures FindChat(Selected(reg, id).chats, Selected(reg, id).currentChatId).None? <==> !HasChat(reg.chats, id)
    ensures CurrentIdValid(Selected(reg, id)) <==> HasChat(reg.chats, id)
  {
  }

  /** Appending never touches the ids, so a consistent registry stays consistent. */
  lemma AddPreserves(reg: Registry, m: Message, now: Instant)
    requires Consistent(reg)
    ensures Consistent(reg.(chats := WithMessage(reg.chats, reg.currentChatId, m, now)))
  {
  }

  /** With no chat under the current id (or a null current id), appending changes nothing. */
  lemma AddWithoutCurrentIsNoop(chats: seq<Chat>, current: Option<string>, m: Message, now: Instant)
    requires current.None? || !HasChat(chats, current.value)
    ensures WithMessage(chats, current, m, now) == chats
  {
  }

  /**
   * With distinct ids and a valid non-null current id, exactly one chat changes: the
   * current one, whose messages gain `m` at the end.
   */
  lemma AddChangesOnlyCurrent(reg: Registry, m: Message, now: Instant)
    requires Consistent(reg) && reg.currentChatId.Some?
    ensures var r := WithMessage(reg.chats, reg.currentChatId, m, now);
            exists i :: 0 <= i < |reg.chats| && r[i].messages == reg.chats[i].messages + [m] &&
                        forall j :: 0 <= j < |reg.chats| && j != i ==> r[j] == reg.chats[j]
  {
  }

  /** Appending to the current chat is what `currentChat` then shows. */
  lemma {:induction false} FindAfterAdd(chats: seq<Chat>, current: Option<string>, m: Message, now: Instant)
    ensures FindChat(chats, current).None? ==> FindChat(WithMessage(chats, current, m, now), current).None?
    ensures FindChat(chats, current).Some? ==>
              var c := FindChat(chats, current).value;
              FindChat(WithMessage(chats, current, m, now), current) == Some(c.(messages := c.messages + [m], updatedAt := now))
  {
    if chats != [] {
      var r := WithMessage(chats, current, m, now);
      assert r[1..] == WithMessage(chats[1..], current, m, now) by {
        var rest := WithMessage(chats[1..], current, m, now);
        forall i | 0 <= i < |rest| ensures r[1..][i] == rest[i] {
          assert chats[1..][i] == chats[i + 1];
        }
      }
      FindAfterAdd(chats[1..], current, m, now);
    }
  }

  // ---------------------------------------------------------------------------
  // Lemmas: restore at startup

  /**
   * Restore: a non-empty saved list becomes the registry with its first chat current;
   * nothing saved seeds exactly one greeting chat, current; a parse failure changes nothing.
   */
  lemma RestoreOutcomes(reg: Registry, raw: Option<string>, parsed: Option<seq<Chat>>,
                        id: string, dateLabel: string, now: Instant)
    ensures var r := Restored(reg, raw, parsed, id, dateLabel, now);
            && (raw.None? || raw == Some("") ==>
                  r.chats == [CreateChat(id, dateLabel, now)] && r.currentChatId == Some(id) && Consistent(r))
            && (raw.Some? && raw.value != "" && parsed.Some? && |parsed.value| > 0 ==>
                  r.chats == parsed.value && FindChat(r.chats, r.currentChatId) == Some(parsed.value[0]))
            && (raw.Some? && raw.value != "" && parsed == Some([]) ==> r == reg.(chats := []))
            && (raw.Some? && raw.value != "" && parsed.None? ==> r == reg)
  {
    var r := Restored(reg, raw, parsed, id, dateLabel, now);
    if raw.None? || raw == Some("") {
      assert HasChat(r.chats, id) by { assert r.chats[0].id == id; }
    }
  }

  /** Restoring distinct saved chats, or seeding, yields a consistent registry. */
  lemma RestorePreserves(reg: Registry, raw: Option<string>, parsed: Option<seq<Chat>>,
                         id: string, dateLabel: string, now: Instant)
    requires Consistent(reg)
    requires parsed.Some? ==> DistinctIds(parsed.value) && (parsed.value == [] ==> reg.currentChatId.None?)
    ensures Consistent(Restored(reg, raw, parsed, id, dateLabel, now))
  {
    var r := Restored(reg, raw, parsed, id, dateLabel, now);
    if raw.Some? && raw.value != "" && parsed.Some? && |parsed.value| > 0 {
      assert HasChat(r.chats, parsed.value[0].id);
    } else if raw.None? || raw == Some("") {
      assert HasChat(r.chats, id) by { assert r.chats[0].id == id; }
    }
  }

  // ---------------------------------------------------------------------------
  // The provider's state cells

  class ChatStore {
    var chats: seq<Chat>
    var currentChatId: Option<string>

    function State(): Registry
      reads this
    {
      Registry(chats, currentChatId)
    }

    /** `currentChat`: the chat the current id names, or null. */
    function CurrentChat(): (r: Option<Chat>)
      reads this
      ensures r.None? <==> currentChatId.None? || !HasChat(chats, currentChatId.value)
      ensures r.Some? ==> r.value in chats && currentChatId == Some(r.value.id)
    {
      FindChat(chats, currentChatId)
    }

    /** The initial `useState` values: no chats, a null current id. */
    constructor ()
      ensures chats == [] && currentChatId == None
    {
      chats := [];
      currentChatId := None;
    }

    method Restore(raw: Option<string>, parsed: Option<seq<Chat>>, id: string, dateLabel: string, now: Instant)
      modifies this
      ensures State() == Restored(old(State()), raw, parsed, id, dateLabel, now)
    {
      if raw.Some? && raw.value != "" {
        match parsed {
          case None =>
          case Some(cs) =>
            chats := cs;
            if |cs| > 0 {
              currentChatId := Some(cs[0].id);
            }
        }
      } else {
        var initial := CreateChat(id, dateLabel, now);
        chats := [initial];
        currentChatId := Some(initial.id);
      }
    }

    method CreateNewChat(id: string, dateLabel: string, now: Instant)
      modifies this
      ensures State() == WithNewChat(old(State()), id, dateLabel, now)
      ensures Consistent(old(State())) && !HasChat(old(chats), id) ==> Consistent(State())
    {
      var newChat := CreateChat(id, dateLabel, now);
      chats := [newChat] + chats;
      currentChatId := Some(newChat.id);
      if Consistent(old(State())) && !HasChat(old(chats), id) {
        CreatePreserves(old(State()), id, dateLabel, now);
      }
    }

    method SelectChat(id: string)
      modifies this
      ensures chats == old(chats) && currentChatId == Some(id)
    {
      currentChatId := Some(id);
    }

    method DeleteChat(id: string)
      modifies this
      ensures State() == Deleted(old(State()), id)
      ensures Consistent(old(State())) ==> Consistent(State())
    {
      var remaining := WithoutChat(chats, id);
      if currentChatId == Some(id) {
        currentChatId := if |remaining| > 0 then Some(remaining[0].id) else None;
      }
      chats := remaining;
      if Consistent(old(State())) {
        DeletePreserves(old(State()), id);
      }
    }

    method AddMessage(m: Message, now: Instant)
      modifies this
      ensures chats == WithMessage(old(chats), old(currentChatId), m, now)
      ensures currentChatId == old(currentChatId)
      ensures Consistent(old(State())) ==> Consistent(State())
    {
      chats := WithMessage(chats, currentChatId, m, now);
      if Consistent(old(State())) {
        AddPreserves(old(State()), m, now);
      }
    }
  }
}
