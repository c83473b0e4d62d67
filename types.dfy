/** Identifiers, records and event envelopes shared by the chat backend model. */
module Types {

  type UserId = string
  type ChannelId = string
  type MessageId = string
  type Emoji = string

  /** An open websocket; only its identity matters to the registry. */
  type SockId = nat

  /** A `datetime.utcnow()` value, kept opaque. */
  type Timestamp = int

  datatype Option<+T> = None | Some(value: T)

  /** Python truthiness of an optional string field: `None` and `""` are both false. */
  predicate Truthy(o: Option<string>) {
    o.Some? && o.value != ""
  }

  /** A message's reactions: emoji -> user ids in the order they reacted. */
  type Reactions = map<Emoji, seq<UserId>>

  datatype Message = Message(
    id: MessageId,
    content: string,
    senderId: UserId,
    senderUsername: string,
    channelId: Option<ChannelId>,
    recipientId: Option<UserId>,
    messageType: string,
    fileUrl: Option<string>,
    fileName: Option<string>,
    reactions: Reactions,
    editedAt: Option<Timestamp>,
    createdAt: Timestamp)

  datatype Channel = Channel(
    id: ChannelId,
    name: string,
    description: Option<string>,
    createdBy: UserId,
    members: seq<UserId>,
    isPublic: bool,
    createdAt: Timestamp)

  /** The JSON payloads pushed over live sockets, discriminated by their `type` field. */
  datatype Envelope =
    | UserStatus(userId: UserId, username: string, isOnline: bool, timestamp: Timestamp)
    | NewMessage(message: Message)
    | MessageEdited(message: Message)
    | ReactionAdded(messageId: MessageId, emoji: Emoji, userId: UserId, reactions: Reactions)

  /** The HTTP errors the handlers raise. */
  datatype HttpError = NotFound | Forbidden {
    function Code(): int {
      match this
      case NotFound => 404
      case Forbidden => 403
    }
  }

  datatype Result<+T, +E> = Ok(value: T) | Err(error: E)

  ghost predicate NoDup<T>(s: seq<T>) {
    forall i, j :: 0 <= i < j < |s| ==> s[i] != s[j]
  }

  /** Number of occurrences of `x` in `s`. */
  function Count<T(==)>(s: seq<T>, x: T): nat {
    if s == [] then 0 else (if s[0] == x then 1 else 0) + Count(s[1..], x)
  }

  lemma {:induction false} CountNoDup<T>(s: seq<T>, x: T)
    requires NoDup(s)
    ensures Count(s, x) == if x in s then 1 else 0
  {
    if s != [] {
      assert NoDup(s[1..]) by {
        forall i, j | 0 <= i < j < |s[1..]| ensures s[1..][i] != s[1..][j] {
          assert s[1..][i] == s[i + 1] && s[1..][j] == s[j + 1];
        }
      }
      CountNoDup(s[1..], x);
      if s[0] == x {
        assert x !in s[1..] by {
          forall k | 0 <= k < |s[1..]| ensures s[1..][k] != x {
            assert s[1..][k] == s[k + 1];
          }
        }
      }
      assert s == [s[0]] + s[1..];
    }
  }

  lemma NoDupCons<T>(x: T, s: seq<T>)
    requires x !in s && NoDup(s)
    ensures NoDup([x] + s)
  {
  }

  lemma NoDupTail<T>(s: seq<T>)
    requires s != [] && NoDup(s)
    ensures NoDup(s[1..]) && s[0] !in s[1..]
  {
  }

  /**
   * Add-to-set on a list (MongoDB `$addToSet`, and also where a new key lands in a Python
   * dict): an element already present leaves the list as it is, a new one goes at the end.
   */
  function AddToSet<T(==)>(s: seq<T>, x: T): seq<T> {
    if x in s then s else s + [x]
  }

  /**
   * After add-to-set `x` is present, nothing else was added, the old list is kept as a
   * prefix, a second add changes nothing, and a duplicate-free list stays so with `x`
   * occurring exactly once.
   */
  lemma AddToSetProps<T>(s: seq<T>, x: T)
    ensures var r := AddToSet(s, x);
            && x in r
            && (forall y :: y in r <==> y in s || y == x)
            && |s| <= |r| <= |s| + 1 && r[..|s|] == s
            && AddToSet(r, x) == r
            && (NoDup(s) ==> NoDup(r) && Count(r, x) == 1)
  {
    var r := AddToSet(s, x);
    assert forall y :: y in r <==> y in s || y == x;
    if NoDup(s) {
      if x !in s {
        forall i, j | 0 <= i < j < |r| ensures r[i] != r[j] {
          if j == |s| { assert r[i] == s[i]; }
          else { assert r[i] == s[i] && r[j] == s[j]; }
        }
      }
      CountNoDup(r, x);
    }
  }

  /**
   * Removal of every occurrence of `x` (MongoDB `$pull`, and the key order of a Python dict
   * after `del`): everything else keeps its order and its number of occurrences.
   */
  function Pull<T(==,!new)>(s: seq<T>, x: T): (r: seq<T>)
    ensures x !in r
    ensures forall y :: y in r <==> y in s && y != x
    ensures forall y :: y != x ==> Count(r, y) == Count(s, y)
    ensures x !in s ==> r == s
  {
    if s == [] then []
    else
      var rest := Pull(s[1..], x);
      assert forall y :: y in s <==> y == s[0] || y in s[1..];
      if s[0] == x then rest
      else
        var r := [s[0]] + rest;
        assert r[1..] == rest;
        r
  }

  /**
   * Pull works element by element: pulling from a concatenation pulls from each part, and
   * a single element is kept exactly when it differs from `x`. Together these fix the
   * result's order: it is `s` with the occurrences of `x` struck out.
   */
  lemma {:induction false} PullAppend<T(!new)>(p: seq<T>, q: seq<T>, x: T)
    ensures Pull(p + q, x) == Pull(p, x) + Pull(q, x)
    ensures forall y :: Pull([y], x) == if y == x then [] else [y]
  {
    if p != [] {
      assert (p + q)[1..] == p[1..] + q;
      PullAppend(p[1..], q, x);
    } else {
      assert p + q == q;
    }
    forall y ensures Pull([y], x) == if y == x then [] else [y] {
      assert [y][1..] == [];
    }
  }

  lemma {:induction false} PullNoDup<T(!new)>(s: seq<T>, x: T)
    requires NoDup(s)
    ensures NoDup(Pull(s, x))
  {
    if s != [] {
      NoDupTail(s);
      PullNoDup(s[1..], x);
      if s[0] != x {
        NoDupCons(s[0], Pull(s[1..], x));
      }
    }
  }
}
