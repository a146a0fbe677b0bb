/**
 * Response assembly (process_with_assistant, after a run completes): the
 * newest-first message list of the OpenAI thread is narrowed to the
 * assistant's messages of this run, put back in chronological order, and
 * its text blocks are joined with newlines and stripped.
 */
module Assembly {
  import opened Base
  import opened Text

  /** One content block of an OpenAI message; only text blocks carry a reply. */
  datatype Block = TextBlock(value: string) | OtherBlock(kind: string)

  /** An OpenAI thread message: the run that produced it (if any), its role, its blocks. */
  datatype Message = Message(runId: Option<string>, role: string, content: seq<Block>)

  const NoTextFallback: string := "I processed your request, but didn't generate a text response."

  /** `m.run_id == run.id and m.role == "assistant"` */
  predicate FromRun(m: Message, runId: string)
  {
    m.runId == Some(runId) && m.role == "assistant"
  }

  /** The messages of this run's assistant, in the order given. */
  function OfRun(ms: seq<Message>, runId: string): (r: seq<Message>)
    ensures |r| <= |ms|
    ensures forall m | m in r :: FromRun(m, runId) && m in ms
    ensures forall m | m in ms && FromRun(m, runId) :: m in r
  {
    if ms == [] then []
    else (if FromRun(ms[0], runId) then [ms[0]] else []) + OfRun(ms[1..], runId)
  }

  /** `reversed(...)` */
  function Reversed(ms: seq<Message>): (r: seq<Message>)
    ensures |r| == |ms|
    ensures forall i | 0 <= i < |ms| :: r[i] == ms[|ms| - 1 - i]
  {
    if ms == [] then [] else Reversed(ms[1..]) + [ms[0]]
  }

  /** The text values of the text blocks, in order. */
  function BlockTexts(bs: seq<Block>): (r: seq<string>)
    ensures |r| <= |bs|
  {
    if bs == [] then []
    else (if bs[0].TextBlock? then [bs[0].value] else []) + BlockTexts(bs[1..])
  }

  /** The text values of all text blocks of all messages, message by message. */
  function Texts(ms: seq<Message>): seq<string>
  {
    if ms == [] then [] else BlockTexts(ms[0].content) + Texts(ms[1..])
  }

  /** The reply text of a completed run, from the newest-first message list. */
  function Assemble(newestFirst: seq<Message>, runId: string): (r: string)
    ensures OfRun(newestFirst, runId) != [] ==> Trimmed(r)
    ensures OfRun(newestFirst, runId) == [] ==> r == NoTextFallback
  {
    var mine := OfRun(newestFirst, runId);
    if mine == [] then NoTextFallback
    else Trim(Join(Texts(Reversed(mine)), "\n"))
  }

  lemma {:induction false} OfRunAppend(a: seq<Message>, b: seq<Message>, runId: string)
    ensures OfRun(a + b, runId) == OfRun(a, runId) + OfRun(b, runId)
  {
    if a == [] {
      assert a + b == b;
    } else {
      assert (a + b)[0] == a[0];
      assert (a + b)[1..] == a[1..] + b;
      OfRunAppend(a[1..], b, runId);
    }
  }

  lemma {:induction false} ReversedAppend(a: seq<Message>, b: seq<Message>)
    ensures Reversed(a + b) == Reversed(b) + Reversed(a)
  {
    var l, r := Reversed(a + b), Reversed(b) + Reversed(a);
    assert |l| == |r|;
    forall i | 0 <= i < |l| ensures l[i] == r[i] {
      if i < |b| {
        assert l[i] == (a + b)[|a| + |b| - 1 - i] == b[|b| - 1 - i];
      } else {
        assert l[i] == (a + b)[|a| + |b| - 1 - i] == a[|a| - 1 - (i - |b|)];
      }
    }
  }

  lemma {:induction false} TextsAppend(a: seq<Message>, b: seq<Message>)
    ensures Texts(a + b) == Texts(a) + Texts(b)
  {
    if a == [] {
      assert a + b == b;
    } else {
      assert (a + b)[0] == a[0];
      assert (a + b)[1..] == a[1..] + b;
      TextsAppend(a[1..], b);
    }
  }

  lemma {:induction false} BlockTextsAppend(a: seq<Block>, b: seq<Block>)
    ensures BlockTexts(a + b) == BlockTexts(a) + BlockTexts(b)
  {
    if a == [] {
      assert a + b == b;
    } else {
      assert (a + b)[0] == a[0];
      assert (a + b)[1..] == a[1..] + b;
      BlockTextsAppend(a[1..], b);
    }
  }

  /** Messages from other runs, or not by the assistant, do not change the reply. */
  lemma AssembleIgnoresOthers(newer: seq<Message>, m: Message, older: seq<Message>, runId: string)
    requires !FromRun(m, runId)
    ensures Assemble(newer + [m] + older, runId) == Assemble(newer + older, runId)
  {
    OfRunAppend(newer + [m], older, runId);
    OfRunAppend(newer, [m], runId);
    OfRunAppend(newer, older, runId);
    assert OfRun([m], runId) == [];
    assert OfRun(newer, runId) + [] == OfRun(newer, runId);
  }

  /** Non-text blocks (images, files) contribute nothing to the reply. */
  lemma NonTextIgnored(before: seq<Block>, kind: string, after: seq<Block>)
    ensures BlockTexts(before + [OtherBlock(kind)] + after) == BlockTexts(before + after)
  {
    BlockTextsAppend(before + [OtherBlock(kind)], after);
    BlockTextsAppend(before, [OtherBlock(kind)]);
    BlockTextsAppend(before, after);
    assert BlockTexts([OtherBlock(kind)]) == [];
    assert BlockTexts(before) + [] == BlockTexts(before);
  }

  /**
   * Chronological order: the text of the run's older messages comes before
   * the text of its newer ones, although the list arrives newest first.
   */
  lemma OlderTextFirst(newer: seq<Message>, older: seq<Message>, runId: string)
    ensures Texts(Reversed(OfRun(newer + older, runId)))
         == Texts(Reversed(OfRun(older, runId))) + Texts(Reversed(OfRun(newer, runId)))
  {
    OfRunAppend(newer, older, runId);
    ReversedAppend(OfRun(newer, runId), OfRun(older, runId));
    TextsAppend(Reversed(OfRun(older, runId)), Reversed(OfRun(newer, runId)));
  }

  /** Two single-text messages of the run, newest first, read oldest first. */
  lemma TwoMessagesJoined(runId: string, first: string, second: string)
    ensures Assemble([Message(Some(runId), "assistant", [TextBlock(second)]),
                      Message(Some(runId), "assistant", [TextBlock(first)])], runId)
         == Trim(first + "\n" + second)
  {
    var m2 := Message(Some(runId), "assistant", [TextBlock(second)]);
    var m1 := Message(Some(runId), "assistant", [TextBlock(first)]);
    assert [m2, m1] == [m2] + [m1];
    OfRunAppend([m2], [m1], runId);
    assert OfRun([m2, m1], runId) == [m2, m1];
    assert Reversed([m2, m1]) == [m1, m2];
    SingleText(first);
    SingleText(second);
    TwoTexts(m1, m2);
    assert Join([first, second], "\n") == first + "\n" + second by {
      assert [first, second][1..] == [second];
    }
  }

  lemma TwoTexts(m1: Message, m2: Message)
    ensures Texts([m1, m2]) == BlockTexts(m1.content) + BlockTexts(m2.content)
  {
    assert [m1, m2][1..] == [m2];
    assert [m2][1..] == [];
    assert Texts([m2]) == BlockTexts(m2.content) + [];
    assert BlockTexts(m2.content) + [] == BlockTexts(m2.content);
  }

  /** The content of a message with one text block yields that text. */
  lemma SingleText(text: string)
    ensures BlockTexts([TextBlock(text)]) == [text]
  {
    assert [TextBlock(text)][1..] == [];
  }

  /** A message with no text block, only images, files and the like. */
  predicate TextFree(m: Message)
  {
    forall b | b in m.content :: b.OtherBlock?
  }

  lemma {:induction false} NoTextBlocks(ms: seq<Message>)
    requires forall m | m in ms :: TextFree(m)
    ensures Texts(ms) == []
  {
    if ms != [] {
      assert ms[0] in ms;
      NoBlockTexts(ms[0].content);
      NoTextBlocks(ms[1..]);
    }
  }

  lemma {:induction false} NoBlockTexts(bs: seq<Block>)
    requires forall b | b in bs :: b.OtherBlock?
    ensures BlockTexts(bs) == []
  {
    if bs != [] {
      assert bs[0] in bs;
      NoBlockTexts(bs[1..]);
    }
  }

  /**
   * When the run did answer but only with non-text blocks, the reply is the
   * empty string, not the fallback.
   */
  lemma AnsweredWithoutText(ms: seq<Message>, runId: string)
    requires OfRun(ms, runId) != []
    requires forall m | m in ms && FromRun(m, runId) :: TextFree(m)
    ensures Assemble(ms, runId) == []
  {
    var mine := OfRun(ms, runId);
    var rev := Reversed(mine);
    forall m | m in rev ensures TextFree(m) {
      var i :| 0 <= i < |rev| && rev[i] == m;
      assert m == mine[|mine| - 1 - i];
      assert m in mine;
    }
    NoTextBlocks(rev);
    assert Join(Texts(rev), "\n") == [];
    assert Trim([]) == [];
  }

  /** No message of this run from the assistant: the fixed fallback. */
  lemma {:induction false} NothingFromRun(ms: seq<Message>, runId: string)
    requires forall m | m in ms :: !FromRun(m, runId)
    ensures OfRun(ms, runId) == []
    ensures Assemble(ms, runId) == NoTextFallback
  {
    if ms != [] {
      assert ms[0] in ms;
      NothingFromRun(ms[1..], runId);
    }
  }
}
