/**
 * The debate's message log: an append-only sequence whose entries are only ever
 * edited in place by id, plus the per-role views the engine and the report take of it.
 */
module MessageLog {
  import opened DebateTypes

  /** The messages of one role, in log order (`messages.filter(msg => msg.role === role)`). */
  function Filter(log: seq<Message>, role: Role): (r: seq<Message>)
    ensures |r| <= |log|
  {
    if log == [] then []
    else
      var init := log[..|log| - 1];
      assert log == init + [log[|log| - 1]];
      Filter(init, role) + (if log[|log| - 1].role == role then [log[|log| - 1]] else [])
  }

  /** The view holds exactly the log's messages of that role. */
  lemma {:induction false} FilterMembers(log: seq<Message>, role: Role)
    ensures forall i :: 0 <= i < |Filter(log, role)| ==> Filter(log, role)[i] in log && Filter(log, role)[i].role == role
    ensures forall m :: m in log && m.role == role ==> m in Filter(log, role)
    decreases |log|
  {
    if log != [] {
      var init := log[..|log| - 1];
      assert log == init + [log[|log| - 1]];
      FilterMembers(init, role);
    }
  }

  /** How many messages of `role` the log holds. */
  function Count(log: seq<Message>, role: Role): nat {
    |Filter(log, role)|
  }

  /** Appending a message extends exactly the view of its own role, by that message. */
  lemma FilterAppend(log: seq<Message>, m: Message, role: Role)
    ensures Filter(log + [m], role) == Filter(log, role) + (if m.role == role then [m] else [])
  {
    assert (log + [m])[..|log + [m]| - 1] == log;
  }

  /** The message `m` after `updateMessage(id, content, loading)` has been applied to it. */
  function Touch(m: Message, id: nat, content: string, loading: bool): Message {
    if m.id == id then m.(content := content, loading := loading) else m
  }

  /**
   * `updateMessage`: every message whose id is `id` gets the new content and loading flag;
   * all other messages, and the order, stay as they were.
   */
  function UpdateById(log: seq<Message>, id: nat, content: string, loading: bool): (r: seq<Message>)
    ensures |r| == |log|
    ensures forall i :: 0 <= i < |log| ==> r[i].id == log[i].id && r[i].role == log[i].role
    ensures forall i :: 0 <= i < |log| && log[i].id == id ==> r[i].content == content && r[i].loading == loading
    ensures forall i :: 0 <= i < |log| && log[i].id != id ==> r[i] == log[i]
  {
    seq(|log|, i requires 0 <= i < |log| => Touch(log[i], id, content, loading))
  }

  /** Updating a log that ends in `last` updates the rest and then `last`. */
  lemma UpdateSnoc(init: seq<Message>, last: Message, id: nat, content: string, loading: bool)
    ensures UpdateById(init + [last], id, content, loading)
         == UpdateById(init, id, content, loading) + [Touch(last, id, content, loading)]
  {
    var r := UpdateById(init + [last], id, content, loading);
    var q := UpdateById(init, id, content, loading) + [Touch(last, id, content, loading)];
    assert |r| == |q|;
    forall i | 0 <= i < |r| ensures r[i] == q[i] {
      if i < |init| {
        assert (init + [last])[i] == init[i];
      }
    }
  }

  /** Updating in place never changes how many messages a role has. */
  lemma {:induction false} CountUpdate(log: seq<Message>, id: nat, content: string, loading: bool, role: Role)
    ensures Count(UpdateById(log, id, content, loading), role) == Count(log, role)
    decreases |log|
  {
    if log != [] {
      var init := log[..|log| - 1];
      var last := log[|log| - 1];
      assert log == init + [last];
      UpdateSnoc(init, last, id, content, loading);
      FilterAppend(UpdateById(init, id, content, loading), Touch(last, id, content, loading), role);
      FilterAppend(init, last, role);
      CountUpdate(init, id, content, loading, role);
    }
  }

  /** Ids grow strictly along the log, so no two messages share one. */
  predicate IdsIncreasing(log: seq<Message>) {
    forall i, j :: 0 <= i < j < |log| ==> log[i].id < log[j].id
  }

  /** Every id in the log was handed out before `next`. */
  predicate IdsBelow(log: seq<Message>, next: nat) {
    forall i :: 0 <= i < |log| ==> log[i].id < next
  }

  /** A role has answered and none of its messages is still loading. */
  predicate Completed(log: seq<Message>, role: Role) {
    var ms := Filter(log, role);
    |ms| > 0 && forall i :: 0 <= i < |ms| ==> !ms[i].loading
  }
}
