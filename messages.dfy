/** Message records: the reaction merge of `add_reaction` and the ownership rule of `edit_message`. */
module Messages {
  import opened Types

  /** The user ids that reacted with `emoji`, oldest first; none when no list exists yet. */
  function Reactors(reactions: Reactions, emoji: Emoji): seq<UserId> {
    if emoji in reactions then reactions[emoji] else []
  }

  /** The reactions after `u` reacts with `emoji`: add-to-set on that emoji's list. */
  function WithReaction(reactions: Reactions, emoji: Emoji, u: UserId): Reactions {
    reactions[emoji := AddToSet(Reactors(reactions, emoji), u)]
  }

  /** No emoji lists a user twice. */
  ghost predicate ReactionsDistinct(reactions: Reactions) {
    forall e :: e in reactions ==> NoDup(reactions[e])
  }

  /**
   * The in-place merge of `add_reaction`: create the emoji's list if missing, then append
   * the user unless already listed.
   */
  method MergeReaction(reactions: Reactions, emoji: Emoji, u: UserId) returns (r: Reactions)
    ensures r == WithReaction(reactions, emoji, u)
  {
    r := reactions;
    if emoji !in r {
      r := r[emoji := []];
    }
    if u !in r[emoji] {
      r := r[emoji := r[emoji] + [u]];
    }
  }

  /**
   * After the merge the user is in the emoji's list (exactly once when the list had no
   * duplicates), the earlier ids keep their order with at most the user appended, other
   * emojis' lists are unchanged, and repeating the reaction changes nothing.
   */
  lemma ReactionMerge(reactions: Reactions, emoji: Emoji, u: UserId)
    ensures var r := WithReaction(reactions, emoji, u);
            var before := Reactors(reactions, emoji);
            && r.Keys == reactions.Keys + {emoji}
            && (forall e :: e in reactions && e != emoji ==> r[e] == reactions[e])
            && u in r[emoji]
            && |r[emoji]| <= |before| + 1 && r[emoji][..|before|] == before
            && (u in before ==> r[emoji] == before)
            && (NoDup(before) ==> Count(r[emoji], u) == 1)
            && WithReaction(r, emoji, u) == r
  {
    var r := WithReaction(reactions, emoji, u);
    AddToSetProps(Reactors(reactions, emoji), u);
    AddToSetProps(r[emoji], u);
    assert r[emoji := r[emoji]] == r;
  }

  /** The merge keeps every emoji's list duplicate-free. */
  lemma ReactionMergeKeepsDistinct(reactions: Reactions, emoji: Emoji, u: UserId)
    requires ReactionsDistinct(reactions)
    ensures ReactionsDistinct(WithReaction(reactions, emoji, u))
  {
  }

  /**
   * `edit_message`: 404 for an unknown message, 403 unless the editor sent it, otherwise
   * the content is replaced and the edit time set.
   */
  function EditMessage(messages: map<MessageId, Message>, mid: MessageId, editor: UserId, content: string, now: Timestamp)
    : Result<Message, HttpError>
  {
    if mid !in messages then Err(NotFound)
    else if messages[mid].senderId != editor then Err(Forbidden)
    else Ok(messages[mid].(content := content, editedAt := Some(now)))
  }

  /**
   * Only the sender can edit: the edit fails with 404 exactly for an unknown message and
   * with 403 exactly when someone else tries; a successful edit changes the content and
   * the edit time and nothing else of the record.
   */
  lemma EditOwnership(messages: map<MessageId, Message>, mid: MessageId, editor: UserId, content: string, now: Timestamp)
    ensures var r := EditMessage(messages, mid, editor, content, now);
            && (r == Err(NotFound) <==> mid !in messages)
            && (r == Err(Forbidden) <==> mid in messages && messages[mid].senderId != editor)
            && (r.Ok? <==> mid in messages && messages[mid].senderId == editor)
            && (r.Ok? ==>
                  && r.value.content == content && r.value.editedAt == Some(now)
                  && r.value.(content := messages[mid].content, editedAt := messages[mid].editedAt) == messages[mid])
  {
  }

  /** `add_reaction`: 404 for an unknown message, otherwise the record with the merged reactions. */
  function ReactToMessage(messages: map<MessageId, Message>, mid: MessageId, emoji: Emoji, u: UserId): Result<Message, HttpError> {
    if mid !in messages then Err(NotFound)
    else Ok(messages[mid].(reactions := WithReaction(messages[mid].reactions, emoji, u)))
  }

  /** Anyone may react to a message that exists; only its reactions change. */
  lemma ReactOutcome(messages: map<MessageId, Message>, mid: MessageId, emoji: Emoji, u: UserId)
    ensures var r := ReactToMessage(messages, mid, emoji, u);
            && (r.Err? <==> mid !in messages)
            && (r.Err? ==> r.error == NotFound)
            && (r.Ok? ==> r.value.(reactions := messages[mid].reactions) == messages[mid]
                          && u in r.value.reactions[emoji])
  {
  }
}
