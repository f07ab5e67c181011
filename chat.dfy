/** Chat messages as the page keeps them in `st.session_state.messages`. */
module Chat {

  datatype Role = System | User | Assistant

  datatype Message = Message(role: Role, content: string)

  /** One chat turn's contribution to the history: the user's prompt, then the reply. */
  function Exchange(prompt: string, reply: string): seq<Message>
  {
    [Message(User, prompt), Message(Assistant, reply)]
  }

  /** The history after a series of turns, each given as (prompt, reply). */
  function Replay(history: seq<Message>, turns: seq<(string, string)>): seq<Message>
    decreases |turns|
  {
    if turns == [] then history
    else Replay(history + Exchange(turns[0].0, turns[0].1), turns[1..])
  }

  /** From index `from` on, messages alternate user, assistant, user, ... */
  predicate Alternates(msgs: seq<Message>, from: nat)
  {
    forall i :: from <= i < |msgs| ==> msgs[i].role == (if (i - from) % 2 == 0 then User else Assistant)
  }

  /** A series of turns adds two messages per turn, leaves every earlier message
      (the system message first of all) where it was, and keeps the
      user/assistant alternation. */
  lemma {:induction false} ReplayKeepsHistory(history: seq<Message>, turns: seq<(string, string)>, from: nat)
    requires from <= |history| && (|history| - from) % 2 == 0 && Alternates(history, from)
    ensures |Replay(history, turns)| == |history| + 2 * |turns|
    ensures Replay(history, turns)[..|history|] == history
    ensures Alternates(Replay(history, turns), from)
    ensures forall k :: 0 <= k < |turns| ==>
      Replay(history, turns)[|history| + 2 * k] == Message(User, turns[k].0) &&
      Replay(history, turns)[|history| + 2 * k + 1] == Message(Assistant, turns[k].1)
    decreases |turns|
  {
    if turns != [] {
      var next := history + Exchange(turns[0].0, turns[0].1);
      ExchangeKeepsAlternation(history, turns[0].0, turns[0].1, from);
      ReplayKeepsHistory(next, turns[1..], from);
      var r := Replay(history, turns);
      assert r == Replay(next, turns[1..]);
      assert r[..|history|] == next[..|next|][..|history|];
      forall k | 0 <= k < |turns|
        ensures r[|history| + 2 * k] == Message(User, turns[k].0)
        ensures r[|history| + 2 * k + 1] == Message(Assistant, turns[k].1)
      {
        if k > 0 {
          assert turns[1..][k - 1] == turns[k];
          assert |history| + 2 * k == |next| + 2 * (k - 1);
        } else {
          assert r[..|next|] == next;
        }
      }
    }
  }

  /** One turn keeps the alternation and everything already in the history. */
  lemma ExchangeKeepsAlternation(history: seq<Message>, prompt: string, reply: string, from: nat)
    requires from <= |history| && (|history| - from) % 2 == 0 && Alternates(history, from)
    ensures var next := history + Exchange(prompt, reply);
      |next| == |history| + 2 && next[..|history|] == history && Alternates(next, from)
  {
    var next := history + Exchange(prompt, reply);
    forall i | from <= i < |next|
      ensures next[i].role == (if (i - from) % 2 == 0 then User else Assistant)
    {
      if i == |history| + 1 {
        assert (i - from) % 2 == 1;
      }
    }
  }
}
