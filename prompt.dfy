/**
 * The two yes/no questions asked before each download (lines 252-272):
 * "Reverse playlist? (y/n)" and "Use playlist name for album? (Y/n)".
 * Each reply is lower-cased and compared with "y" and "n"; a reply that is
 * neither is rejected and the question is asked again.
 */
module Prompt {
  import opened Sequences

  datatype Question = ReversePlaylist | UsePlaylistName

  /** `str.lower` on one character, for the characters that can lower to 'y' or 'n'. */
  function LowerChar(c: char): (r: char)
    ensures 'a' <= r <= 'z' ==> (c == r || c as int == r as int - 32)
  {
    if 'A' <= c <= 'Z' then (c as int + 32) as char else c
  }

  /** `str.lower` over ASCII; every other character is kept as it is. */
  function Lower(s: string): (r: string)
    ensures |r| == |s|
    ensures forall i :: 0 <= i < |s| ==> r[i] == LowerChar(s[i])
  {
    if s == [] then [] else [LowerChar(s[0])] + Lower(s[1..])
  }

  /**
   * The answer a reply gives, or None when the question is asked again.
   * An empty reply means "no" to the first question and is rejected by the
   * second, although its prompt shows "Y" as the default.
   */
  function Answer(q: Question, reply: string): (r: Option<bool>)
    ensures r.Some? ==> |reply| <= 1
    ensures r.Some? && q == UsePlaylistName ==> |reply| == 1
  {
    var r := Lower(reply);
    if r == "y" then Some(true)
    else if r == "n" || (q == ReversePlaylist && r == "") then Some(false)
    else None
  }

  /** The replies each question accepts, and what they mean. */
  lemma AnswerCases(q: Question, reply: string)
    ensures Answer(q, reply) == Some(true) <==> reply == "y" || reply == "Y"
    ensures Answer(q, reply) == Some(false) <==>
      reply == "n" || reply == "N" || (q == ReversePlaylist && reply == "")
  {
    var r := Lower(reply);
    if |reply| == 1 {
      assert r == [LowerChar(reply[0])];
      assert reply == [reply[0]];
    }
  }

  /**
   * The `while True` loop around one question, over the replies the user
   * types in order: it stops at the first accepted reply and answers with
   * it. When every reply is rejected it runs out of them with no answer.
   */
  method Ask(q: Question, replies: seq<string>) returns (answer: Option<bool>, used: nat)
    ensures used <= |replies|
    ensures forall k :: 0 <= k < used - 1 ==> Answer(q, replies[k]).None?
    ensures answer.Some? ==> 1 <= used && answer == Answer(q, replies[used - 1])
    ensures answer.None? ==> used == |replies| && forall k :: 0 <= k < |replies| ==> Answer(q, replies[k]).None?
  {
    used := 0;
    while used < |replies|
      invariant used <= |replies|
      invariant forall k :: 0 <= k < used ==> Answer(q, replies[k]).None?
    {
      var response := Answer(q, replies[used]);
      used := used + 1;
      if response.Some? {
        return response, used;
      }
    }
    return None, used;
  }
}
