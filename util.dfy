/** hub/util.go: the room key of a direct conversation between two users. */
module Util {
  import opened GoStrings

  /** `createUserChatKey`: "user:" followed by the two names, the smaller
      one (in Go's string order) first, separated by ':'. */
  function UserChatKey(user1: string, user2: string): (key: string)
    ensures |key| == |user1| + |user2| + 6
    ensures key[..5] == "user:"
  {
    if Less(user1, user2) then "user:" + user1 + ":" + user2
    else "user:" + user2 + ":" + user1
  }

  /** Both parties of a conversation compute the same key. */
  lemma UserChatKeyCommutes(a: string, b: string)
    ensures UserChatKey(a, b) == UserChatKey(b, a)
  {
    LessTotal(a, b);
    LessAsymmetric(a, b);
  }

  /** The smaller name comes first, whichever argument it was. */
  lemma UserChatKeyOrdersNames(a: string, b: string)
    ensures Less(a, b) ==> UserChatKey(a, b) == "user:" + a + ":" + b
    ensures Less(b, a) ==> UserChatKey(a, b) == "user:" + b + ":" + a
    ensures UserChatKey(a, a) == "user:" + a + ":" + a
  {
    LessAsymmetric(a, b);
    LessIrreflexive(a);
  }

  /** A direct-conversation key never equals a broadcast-room key. */
  lemma UserChatKeyIsNoRoomKey(a: string, b: string, room: string)
    ensures UserChatKey(a, b) != "room:" + room
  {
  }

  /** The key does not determine the pair when names contain ':': two
      different conversations can share one room. */
  lemma UserChatKeysCanCollide()
    ensures UserChatKey("a:b", "c") == UserChatKey("a", "b:c") == "user:a:b:c"
  {
    assert Less("a:b", "c");
    assert Less("a", "b:c");
  }
}
