/** Conversation turns `{role, content}` as clients send them and the relays
    forward them, and the one transformation on them: dropping system turns. */
module Chat {
  import opened Js

  /** One turn. `content` is `None` when the field is undefined, as it is for
      an assistant turn built from a reply that had no `reply` field. */
  datatype Turn = Turn(role: string, content: Option<string>)

  /** A request-body field whose arrays hold turns. */
  type Field = Value<Turn>

  predicate IsSystem(t: Turn)
  {
    t.role == "system"
  }

  function SystemTurn(text: string): Turn
  {
    Turn("system", Some(text))
  }

  function UserTurn(text: string): Turn
  {
    Turn("user", Some(text))
  }

  function AssistantTurn(content: Option<string>): Turn
  {
    Turn("assistant", content)
  }

  /** `turns.filter(msg => msg.role !== 'system')`. */
  function WithoutSystem(turns: seq<Turn>): (r: seq<Turn>)
    ensures |r| <= |turns|
    ensures forall i :: 0 <= i < |r| ==> !IsSystem(r[i])
    ensures forall t :: t in r <==> t in turns && !IsSystem(t)
  {
    if turns == [] then []
    else if IsSystem(turns[0]) then WithoutSystem(turns[1..])
    else [turns[0]] + WithoutSystem(turns[1..])
  }

  /** Number of non-system turns, counted from the end of the sequence. */
  function CountNonSystem(turns: seq<Turn>): nat
  {
    if turns == [] then 0
    else CountNonSystem(turns[..|turns| - 1]) + (if IsSystem(turns[|turns| - 1]) then 0 else 1)
  }

  /** `a` can be obtained from `b` by deleting elements, so it keeps their relative order. */
  ghost predicate IsSubsequence(a: seq<Turn>, b: seq<Turn>)
    decreases |b|
  {
    || a == []
    || (b != [] && ((a[0] == b[0] && IsSubsequence(a[1..], b[1..])) || IsSubsequence(a, b[1..])))
  }

  /** Filtering distributes over concatenation. */
  lemma {:induction false} WithoutSystemAppend(a: seq<Turn>, b: seq<Turn>)
    ensures WithoutSystem(a + b) == WithoutSystem(a) + WithoutSystem(b)
  {
    if a == [] {
      assert a + b == b;
    } else {
      assert (a + b)[1..] == a[1..] + b;
      WithoutSystemAppend(a[1..], b);
    }
  }

  /** The filter keeps exactly the non-system turns: its length is their number. */
  lemma {:induction false} WithoutSystemLength(turns: seq<Turn>)
    ensures |WithoutSystem(turns)| == CountNonSystem(turns)
  {
    if turns != [] {
      var init, last := turns[..|turns| - 1], turns[|turns| - 1];
      assert turns == init + [last];
      WithoutSystemAppend(init, [last]);
      WithoutSystemLength(init);
    }
  }

  /** The filter preserves the relative order of the turns it keeps. */
  lemma {:induction false} WithoutSystemIsSubsequence(turns: seq<Turn>)
    ensures IsSubsequence(WithoutSystem(turns), turns)
  {
    if turns != [] {
      WithoutSystemIsSubsequence(turns[1..]);
      var r := WithoutSystem(turns);
      if !IsSystem(turns[0]) {
        assert r[0] == turns[0] && r[1..] == WithoutSystem(turns[1..]);
      }
    }
  }

  /** A transcript without system turns passes the filter unchanged. */
  lemma {:induction false} WithoutSystemOfNonSystem(turns: seq<Turn>)
    requires forall i :: 0 <= i < |turns| ==> !IsSystem(turns[i])
    ensures WithoutSystem(turns) == turns
  {
    if turns != [] {
      WithoutSystemOfNonSystem(turns[1..]);
    }
  }
}
