/** From a finished run to the sealed item: the summary is what the size check allows for. */
module CompactSeal {
  import opened Utf8
  import opened CompactParts
  import opened CompactRun
  import opened CompactCalls
  import State = CompactState

  /** The rolling summary is empty before any answer, and a usable text after one. */
  lemma {:induction false} RolledText(sent: seq<Call>, n: nat)
    requires n <= |sent| && AllSurvived(sent)
    ensures |Rolled(sent, n).text| <= MAX_SUMMARY_BYTES
    ensures Rolled(sent, n).text == [] <==> Segments(sent, n) == []
  {
    if n > 0 {
      RolledText(sent, n - 1);
      assert Survived(sent[n - 1]);
    }
  }

  lemma NothingCut(parts: seq<Part>)
    requires CutOf(parts, Concat([]))
    ensures parts == []
  {
    var none: seq<seq<Part>> := [];
    assert Requests(none);
    NothingToSend(parts, none);
  }

  /** A finished run has a summary of at most 32 KiB, and an empty one exactly when there was nothing to summarise. */
  lemma FinishedSummary(parts: seq<Part>, sent: seq<Call>, summary: Summary)
    requires Finished(parts, sent, summary)
    ensures |summary.text| <= MAX_SUMMARY_BYTES && (parts == [] <==> summary.text == [])
  {
    RolledText(sent, |sent|);
    if Segments(sent, |sent|) == [] { NothingCut(parts); }
  }

  /** If the check before inference passes, sealing the summary of a finished run cannot fail on size. */
  lemma FinishedRunSeals(parts: seq<Part>, sent: seq<Call>, summary: Summary, heading: seq<byte>, front: seq<nat>,
                         tail: seq<nat>,
                         covered: seq<nat>)
    requires Finished(parts, sent, summary) && Valid(heading) &&
      State.Validates(heading, front, tail, covered, parts == [])
    ensures State.Encodes(heading, front, summary.text, tail, covered)
  {
    FinishedSummary(parts, sent, summary);
    State.SealAlwaysFits(heading, front, tail, covered, parts == [], summary.text);
  }

  // ---- What the summary adds up ---------------------------------------------------------------------

  function InputTokens(sent: seq<Call>): int {
    if sent == [] then 0 else (if sent[0].answer.Answered? then sent[0].answer.input else 0) + InputTokens(sent[1..])
  }

  function OutputTokens(sent: seq<Call>): int {
    if sent == [] then 0 else (if sent[0].answer.Answered? then sent[0].answer.output else 0) + OutputTokens(sent[1..])
  }

  lemma {:induction false} TokensAppend(sent: seq<Call>, last: Call)
    ensures InputTokens(sent + [last]) == InputTokens(sent) + InputTokens([last])
    ensures OutputTokens(sent + [last]) == OutputTokens(sent) + OutputTokens([last])
  {
    if sent == [] {
      assert [] + [last] == [last];
    } else {
      assert (sent + [last])[1..] == sent[1..] + [last];
      TokensAppend(sent[1..], last);
    }
  }

  /** Call k is the last that was answered. */
  predicate LastAnswer(sent: seq<Call>, k: nat) {
    k < |sent| && sent[k].answer.Answered? && forall j :: k < j < |sent| ==> !sent[j].answer.Answered?
  }

  lemma {:induction false} RolledIs(sent: seq<Call>, n: nat)
    requires n <= |sent|
    ensures Rolled(sent, n).input == InputTokens(sent[..n]) && Rolled(sent, n).output == OutputTokens(sent[..n])
    ensures forall k: nat :: LastAnswer(sent[..n], k) ==> Rolled(sent, n).text == sent[k].answer.text
    ensures (forall k :: 0 <= k < n ==> !sent[k].answer.Answered?) ==> Rolled(sent, n).text == []
  {
    if n > 0 {
      RolledIs(sent, n - 1);
      assert sent[..n] == sent[..n - 1] + [sent[n - 1]];
      TokensAppend(sent[..n - 1], sent[n - 1]);
      assert [sent[n - 1]][1..] == [];
      forall k: nat | LastAnswer(sent[..n], k)
        ensures Rolled(sent, n).text == sent[k].answer.text
      {
        if k < n - 1 {
          assert !sent[..n][n - 1].answer.Answered?;
          assert LastAnswer(sent[..n - 1], k);
        }
      }
    }
  }

  /** The summary of a finished run is the text of the last answer, with the tokens of all answered calls. */
  lemma FinishedTotals(parts: seq<Part>, sent: seq<Call>, summary: Summary)
    requires Finished(parts, sent, summary)
    ensures summary.input == InputTokens(sent) && summary.output == OutputTokens(sent)
    ensures forall k: nat :: LastAnswer(sent, k) ==> summary.text == sent[k].answer.text
  {
    RolledIs(sent, |sent|);
    assert sent[..|sent|] == sent;
  }
}
