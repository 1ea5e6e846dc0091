/** `RoleMessageCache`: the binding of a message carrying a "claim role"
    button to the role it grants, and the first-match lookup over a list of
    bindings. */
module RoleMessages {
  import opened Primitives

  datatype RoleMessageCache = RoleMessageCache(messageId: U64, roleId: U64)

  /** The index of the first binding for `id`, or `|msgs|` when there is
      none. */
  function FirstMatch(msgs: seq<RoleMessageCache>, id: U64): (k: nat)
    ensures k <= |msgs|
    ensures forall j | 0 <= j < k :: msgs[j].messageId != id
    ensures k < |msgs| ==> msgs[k].messageId == id
  {
    if msgs == [] then 0
    else if msgs[0].messageId == id then 0
    else 1 + FirstMatch(msgs[1..], id)
  }

  /** `List.Find` with the predicate "same message id": the first binding
      for `id` in list order, or `null` when no binding has that id. */
  function FindFirst(msgs: seq<RoleMessageCache>, id: U64): (r: Option<RoleMessageCache>)
    ensures r.None? <==> forall j | 0 <= j < |msgs| :: msgs[j].messageId != id
    ensures forall i | 0 <= i < |msgs| && msgs[i].messageId == id
                       && (forall j | 0 <= j < i :: msgs[j].messageId != id)
              :: r == Some(msgs[i])
  {
    var k := FirstMatch(msgs, id);
    if k < |msgs| then Some(msgs[k]) else None
  }

  /** Appending `b` never changes an existing answer; it only answers for
      `b`'s own message id when no earlier binding did. */
  lemma {:induction false} FindFirstAppend(msgs: seq<RoleMessageCache>, b: RoleMessageCache, id: U64)
    ensures FindFirst(msgs + [b], id)
         == if FindFirst(msgs, id).Some? then FindFirst(msgs, id)
            else if b.messageId == id then Some(b) else None
  {
    if msgs != [] {
      assert (msgs + [b])[1..] == msgs[1..] + [b];
      FindFirstAppend(msgs[1..], b, id);
    }
  }

  /** After appending `b`, a lookup of `b`'s message id finds a binding, and
      finds `b` itself when no earlier binding had that id. */
  lemma FindAfterAppend(msgs: seq<RoleMessageCache>, b: RoleMessageCache)
    ensures FindFirst(msgs + [b], b.messageId).Some?
    ensures FindFirst(msgs, b.messageId).None? ==> FindFirst(msgs + [b], b.messageId) == Some(b)
  {
    FindFirstAppend(msgs, b, b.messageId);
  }
}
