/**
 The conversation that is sent upstream: alternating entries, every call answered exactly once
 at the start of the next user entry.
 */
module AntigravityContents {
  import opened Collections
  import opened AntigravityHistory

  /** An entry of the request: its role and its parts. */
  datatype Entry = Entry(user: bool, parts: seq<Part>)

  function CallIds(parts: seq<Part>): seq<string> {
    if parts == [] then []
    else if parts[0].Call? then [parts[0].id] + CallIds(parts[1..])
    else CallIds(parts[1..])
  }

  function AnswerIds(parts: seq<Part>): seq<string> {
    if parts == [] then []
    else if parts[0].Response? then [parts[0].id] + AnswerIds(parts[1..])
    else AnswerIds(parts[1..])
  }

  predicate NoCalls(parts: seq<Part>) {
    forall i :: 0 <= i < |parts| ==> !parts[i].Call?
  }

  predicate NoAnswers(parts: seq<Part>) {
    forall i :: 0 <= i < |parts| ==> !parts[i].Response?
  }

  predicate OnlyAnswers(parts: seq<Part>) {
    forall i :: 0 <= i < |parts| ==> parts[i].Response?
  }

  /** All answers come before everything else. */
  predicate AnswersLead(parts: seq<Part>) {
    forall i, j :: 0 <= i < j < |parts| && parts[j].Response? ==> parts[i].Response?
  }

  lemma {:induction false} CallIdsAppend(a: seq<Part>, b: seq<Part>)
    ensures CallIds(a + b) == CallIds(a) + CallIds(b)
  {
    if a == [] {
      assert a + b == b;
    } else {
      assert (a + b)[1..] == a[1..] + b;
      CallIdsAppend(a[1..], b);
    }
  }

  lemma {:induction false} AnswerIdsAppend(a: seq<Part>, b: seq<Part>)
    ensures AnswerIds(a + b) == AnswerIds(a) + AnswerIds(b)
  {
    if a == [] {
      assert a + b == b;
    } else {
      assert (a + b)[1..] == a[1..] + b;
      AnswerIdsAppend(a[1..], b);
    }
  }

  lemma {:induction false} NoCallIds(parts: seq<Part>)
    requires NoCalls(parts)
    ensures CallIds(parts) == []
  {
    if parts != [] { NoCallIds(parts[1..]); }
  }

  lemma {:induction false} NoAnswerIds(parts: seq<Part>)
    requires NoAnswers(parts)
    ensures AnswerIds(parts) == []
  {
    if parts != [] { NoAnswerIds(parts[1..]); }
  }

  /**
   Every call of a model entry is answered once among these answers or still pending, and
   nothing else is answered.
   */
  predicate Accounted(calls: seq<string>, answers: seq<string>, pending: set<string>) {
    && multiset(calls) == multiset(answers) + multiset(pending)
    && forall id :: id in calls ==> multiset(calls)[id] == 1
  }

  /** A user entry after the model parts before it. */
  predicate Answers(model: seq<Part>, user: seq<Part>, pending: set<string>) {
    && AnswersLead(user) && NoCalls(user) && (pending != {} ==> OnlyAnswers(user))
    && Accounted(CallIds(model), AnswerIds(user), pending)
  }

  function Before(contents: seq<Entry>, j: nat): seq<Part>
    requires j < |contents|
  {
    if j == 0 then [] else contents[j - 1].parts
  }

  predicate EntryOk(contents: seq<Entry>, pending: set<string>, j: nat)
    requires j < |contents|
  {
    && contents[j].parts != []
    && (j > 0 ==> contents[j - 1].user != contents[j].user)
    && if contents[j].user
       then Answers(Before(contents, j), contents[j].parts, if j == |contents| - 1 then pending else {})
       else NoAnswers(contents[j].parts) && (j == |contents| - 1 ==> Accounted(CallIds(contents[j].parts), [], pending))
  }

  /** The conversation so far, when these calls of its last model entry are not answered yet. */
  predicate Orderly(contents: seq<Entry>, pending: set<string>) {
    && (contents == [] ==> pending == {})
    && forall j :: 0 <= j < |contents| ==> EntryOk(contents, pending, j)
  }

  /** requestBuilder.append. */
  function Append(contents: seq<Entry>, user: bool, parts: seq<Part>): seq<Entry> {
    if parts == [] then contents
    else if contents != [] && contents[|contents| - 1].user == user
    then contents[|contents| - 1 := Entry(user, contents[|contents| - 1].parts + parts)]
    else contents + [Entry(user, parts)]
  }

  lemma EmptySeq(s: seq<string>)
    requires multiset(s) == multiset{}
    ensures s == []
  {
    assert |multiset(s)| == |s|;
  }

  lemma EmptySet(s: set<string>)
    requires multiset(s) == multiset{}
    ensures s == {}
  {
    assert |multiset(s)| == |s|;
  }

  lemma NoneAccounted(calls: seq<string>)
    requires Accounted(calls, [], {})
    ensures calls == []
  {
    EmptySeq(calls);
  }

  /** Entries before the last one do not see what happens to it. */
  lemma EarlierEntry(contents: seq<Entry>, before: set<string>, parts: seq<Part>, after: set<string>, j: nat)
    requires j + 1 < |contents| && EntryOk(contents, before, j) && parts != []
    ensures EntryOk(contents[|contents| - 1 := Entry(contents[|contents| - 1].user, parts)], after, j)
  {
  }

  /** The model speaks again: its last entry had no calls, so the new ones are all there is. */
  lemma MergeModel(contents: seq<Entry>, parts: seq<Part>, pending: set<string>)
    requires Orderly(contents, {}) && NoAnswers(parts) && parts != [] && Accounted(CallIds(parts), [], pending)
    requires contents != [] && !contents[|contents| - 1].user
    ensures Orderly(Append(contents, false, parts), pending)
  {
    var last := |contents| - 1;
    var merged := contents[last].parts + parts;
    var longer := contents[last := Entry(false, merged)];
    assert EntryOk(contents, {}, last);
    NoneAccounted(CallIds(contents[last].parts));
    CallIdsAppend(contents[last].parts, parts);
    assert [] + CallIds(parts) == CallIds(parts);
    forall j | 0 <= j < |longer|
      ensures EntryOk(longer, pending, j)
    {
      if j < last {
        assert EntryOk(contents, {}, j);
        EarlierEntry(contents, {}, merged, pending, j);
      }
    }
  }

  /** After the model's last word: new parts with these calls, all of them pending. */
  lemma AppendModel(contents: seq<Entry>, parts: seq<Part>, pending: set<string>)
    requires Orderly(contents, {}) && NoAnswers(parts) && Accounted(CallIds(parts), [], pending)
    ensures Orderly(Append(contents, false, parts), pending)
  {
    if parts == [] {
      EmptySet(pending);
    } else if contents != [] && !contents[|contents| - 1].user {
      MergeModel(contents, parts, pending);
    } else {
      var longer := contents + [Entry(false, parts)];
      forall j | 0 <= j < |longer|
        ensures EntryOk(longer, pending, j)
      {
        if j < |contents| { assert EntryOk(contents, {}, j); }
      }
    }
  }

  /** One more answer takes its call out of the pending ones. */
  lemma Answered(calls: seq<string>, answers: seq<string>, pending: set<string>, id: string)
    requires Accounted(calls, answers, pending) && id in pending
    ensures Accounted(calls, answers + [id], pending - {id})
  {
    assert multiset(pending) == multiset(pending - {id}) + multiset{id};
  }

  /** The first answer opens a user entry. */
  lemma FirstAnswer(contents: seq<Entry>, answer: Part, pending: set<string>)
    requires Orderly(contents, pending) && answer.Response? && answer.id in pending
    requires contents != [] && !contents[|contents| - 1].user
    ensures Orderly(Append(contents, true, [answer]), pending - {answer.id})
  {
    var longer, rest, last := Append(contents, true, [answer]), pending - {answer.id}, |contents| - 1;
    assert EntryOk(contents, pending, last);
    assert [answer][1..] == [] && AnswerIds([answer]) == [answer.id];
    Answered(CallIds(contents[last].parts), [], pending, answer.id);
    assert [] + [answer.id] == [answer.id];
    forall j | 0 <= j < |longer|
      ensures EntryOk(longer, rest, j)
    {
      if j < |contents| { assert EntryOk(contents, pending, j); }
    }
  }

  lemma AnswersMore(model: seq<Part>, user: seq<Part>, pending: set<string>, answer: Part)
    requires Answers(model, user, pending) && answer.Response? && answer.id in pending
    ensures Answers(model, user + [answer], pending - {answer.id})
  {
    AnswerIdsAppend(user, [answer]);
    assert [answer][1..] == [] && AnswerIds([answer]) == [answer.id];
    Answered(CallIds(model), AnswerIds(user), pending, answer.id);
    assert OnlyAnswers(user + [answer]);
  }

  /** Further answers join it. */
  lemma FurtherAnswer(contents: seq<Entry>, answer: Part, pending: set<string>)
    requires Orderly(contents, pending) && answer.Response? && answer.id in pending
    requires contents != [] && contents[|contents| - 1].user
    ensures Orderly(Append(contents, true, [answer]), pending - {answer.id})
  {
    var rest, last := pending - {answer.id}, |contents| - 1;
    var parts := contents[last].parts + [answer];
    var longer := contents[last := Entry(true, parts)];
    assert EntryOk(contents, pending, last);
    AnswersMore(Before(contents, last), contents[last].parts, pending, answer);
    forall j | 0 <= j < |longer|
      ensures EntryOk(longer, rest, j)
    {
      if j < last {
        assert EntryOk(contents, pending, j);
        EarlierEntry(contents, pending, parts, rest, j);
      } else {
        assert Before(longer, last) == Before(contents, last);
      }
    }
  }

  /** Answering one pending call. */
  lemma AppendAnswer(contents: seq<Entry>, answer: Part, pending: set<string>)
    requires Orderly(contents, pending) && answer.Response? && answer.id in pending
    ensures Orderly(Append(contents, true, [answer]), pending - {answer.id})
  {
    if contents[|contents| - 1].user {
      FurtherAnswer(contents, answer, pending);
    } else {
      FirstAnswer(contents, answer, pending);
    }
  }

  /** A user message, once every call is answered. */
  lemma AppendUser(contents: seq<Entry>, parts: seq<Part>)
    requires Orderly(contents, {}) && NoAnswers(parts) && NoCalls(parts)
    ensures Orderly(Append(contents, true, parts), {})
  {
    var longer, last := Append(contents, true, parts), |contents| - 1;
    NoAnswerIds(parts);
    if parts != [] {
      if contents != [] && contents[last].user {
        AnswerIdsAppend(contents[last].parts, parts);
        assert AnswerIds(contents[last].parts) + [] == AnswerIds(contents[last].parts);
        forall j | 0 <= j < |longer|
          ensures EntryOk(longer, {}, j)
        {
          assert EntryOk(contents, {}, j);
        }
      } else {
        if contents != [] {
          assert EntryOk(contents, {}, last);
          NoneAccounted(CallIds(contents[last].parts));
        }
        forall j | 0 <= j < |longer|
          ensures EntryOk(longer, {}, j)
        {
          if j < |contents| { assert EntryOk(contents, {}, j); }
        }
      }
    }
  }

  /**
   What an accepted request looks like: roles alternate, and a model entry with calls is
   followed by a user entry that starts with exactly one answer to each.
   */
  lemma AcceptedIsPaired(contents: seq<Entry>, i: nat)
    requires Orderly(contents, {}) && i < |contents|
    ensures contents[i].parts != [] && (i + 1 < |contents| ==> contents[i].user != contents[i + 1].user)
    ensures !contents[i].user && CallIds(contents[i].parts) != [] ==>
              && i + 1 < |contents| && contents[i + 1].user && AnswersLead(contents[i + 1].parts)
              && multiset(AnswerIds(contents[i + 1].parts)) == multiset(CallIds(contents[i].parts))
              && forall id :: id in CallIds(contents[i].parts) ==> multiset(AnswerIds(contents[i + 1].parts))[id] == 1
    ensures contents[i].user && (i == 0 || CallIds(contents[i - 1].parts) == []) ==> AnswerIds(contents[i].parts) == []
  {
    assert EntryOk(contents, {}, i);
    if i + 1 < |contents| {
      assert EntryOk(contents, {}, i + 1);
    } else if !contents[i].user {
      NoneAccounted(CallIds(contents[i].parts));
    }
    if contents[i].user && (i == 0 || CallIds(contents[i - 1].parts) == []) {
      var answers := AnswerIds(contents[i].parts);
      assert multiset(answers) + multiset({}) == multiset{};
      EmptySeq(answers);
    }
  }
}
