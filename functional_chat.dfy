/**
 * The scripted FAQ chat.  Its transcript only ever grows: a preset button
 * appends a question and its answer from the FAQ table, and a typed message
 * that is not blank appends the message and the answer chosen by keyword.
 */
module Chat {
  import opened Opt
  import opened Text
  import Faq

  datatype Role = Question | Answer
  datatype Entry = Entry(role: Role, text: string)

  /** The entry every transcript starts with. */
  const Greeting := Entry(Answer, "Hi! I'm here to help you with common questions. How can I assist you today?")

  /** The answer to a typed message that mentions none of the keywords. */
  const DefaultReply := "I understand your question. For specific medical concerns, please book a consultation with our doctors. For general queries, please call our reception."

  /** The keyword rule for typed messages, checked in this order on the
      lowercased message: the FAQ entry whose answer is sent, or `None` for
      the default reply.  Only three of the six entries can be chosen. */
  function Classify(message: string): (r: Option<Faq.Topic>)
    ensures r in {None, Some(Faq.Fees), Some(Faq.Booking), Some(Faq.Reports)}
  {
    var lower := Lower(message);
    if Contains(lower, "fee") || Contains(lower, "cost") || Contains(lower, "price") then Some(Faq.Fees)
    else if Contains(lower, "book") || Contains(lower, "appointment") then Some(Faq.Booking)
    else if Contains(lower, "report") || Contains(lower, "upload") then Some(Faq.Reports)
    else None
  }

  /** The reply to a typed message: what the table holds under the key of
      the chosen entry, or the default reply. */
  function Respond(message: string): (r: string)
    ensures Classify(message).Some? ==> Faq.Lookup(Faq.Question(Classify(message).value)) == Some(r)
    ensures Classify(message).None? ==> r == DefaultReply
  {
    match Classify(message)
    case Some(t) =>
      Faq.LookupQuestion(t);
      Faq.Answer(t)
    case None => DefaultReply
  }

  /** The lowercased message mentions a fee, a booking or a report. */
  ghost predicate MentionsFee(message: string) {
    var lower := Lower(message);
    Occurs(lower, "fee") || Occurs(lower, "cost") || Occurs(lower, "price")
  }

  ghost predicate MentionsBooking(message: string) {
    var lower := Lower(message);
    Occurs(lower, "book") || Occurs(lower, "appointment")
  }

  ghost predicate MentionsReport(message: string) {
    var lower := Lower(message);
    Occurs(lower, "report") || Occurs(lower, "upload")
  }

  /** The reply goes by priority: fees first, whatever else the message
      mentions, then bookings, then reports, and the default otherwise. */
  lemma RespondPriority(message: string)
    ensures Classify(message) == Some(Faq.Fees) <==> MentionsFee(message)
    ensures Classify(message) == Some(Faq.Booking) <==> !MentionsFee(message) && MentionsBooking(message)
    ensures Classify(message) == Some(Faq.Reports) <==>
              !MentionsFee(message) && !MentionsBooking(message) && MentionsReport(message)
    ensures Classify(message) == None <==>
              !MentionsFee(message) && !MentionsBooking(message) && !MentionsReport(message)
  {
    var lower := Lower(message);
    ContainsOccurs(lower, "fee");
    ContainsOccurs(lower, "cost");
    ContainsOccurs(lower, "price");
    ContainsOccurs(lower, "book");
    ContainsOccurs(lower, "appointment");
    ContainsOccurs(lower, "report");
    ContainsOccurs(lower, "upload");
  }

  /** Matching is on substrings: any message whose lowercase form contains
      "fee" anywhere, as "feel" does, gets the fee answer. */
  lemma FeeSubstringWins(a: string, b: string)
    ensures Classify(a + "fee" + b) == Some(Faq.Fees)
  {
    var m := a + "fee" + b;
    assert Lower(m)[|a|..|a| + 3] == "fee";
    assert OccursAt(Lower(m), "fee", |a|);
    RespondPriority(m);
  }

  /** Case does not matter: a message and its lowercase form get the same reply. */
  lemma RespondIgnoresCase(message: string)
    ensures Classify(Lower(message)) == Classify(message)
  {
    assert Lower(Lower(message)) == Lower(message);
  }

  /** "What will it cost?" gets the fee answer. */
  lemma CostQuestionGetsFeeAnswer()
    ensures Classify("What will it cost?") == Some(Faq.Fees)
  {
    assert Lower("What will it cost?") == "what will it cost?";
    OccursAtPlace("what will it cost?", "cost", 13);
    RespondPriority("What will it cost?");
  }

  /** The number of keys offered as preset buttons. */
  const PresetCount := 3

  /** The questions offered as preset buttons: the first three keys of the
      table, in the order they were written. */
  function Presets(): (ps: seq<string>)
    ensures ps == [Faq.Question(Faq.Fees), Faq.Question(Faq.Booking), Faq.Question(Faq.Reports)]
  {
    seq(PresetCount, i requires 0 <= i < PresetCount => Faq.Question(Faq.Topics[i]))
  }

  /** A button label: the question when it has at most 20 characters, and
      otherwise its first 20 characters followed by "...".  Either way it has
      at most 23 characters and begins with the question's first 20. */
  function Label(question: string): (l: string)
    ensures |l| <= 23
    ensures |question| <= 20 ==> l == question
    ensures |question| > 20 ==> |l| == 23 && l[..20] == question[..20] && l[20..] == "..."
  {
    if |question| > 20 then question[..20] + "..." else question
  }

  /** The three buttons read as follows. */
  lemma PresetLabels()
    ensures Label(Presets()[0]) == "What are your consultation fees?"[..20] + "..."
    ensures Label(Presets()[1]) == "How do I book an appointment?"[..20] + "..."
    ensures Label(Presets()[2]) == "Can I upload my medical reports?"[..20] + "..."
  {
  }

  /** Typing a preset question gives the same answer as clicking it: the
      keyword rule picks the very entry the preset is the key of, because
      each preset mentions a keyword of its own entry and none of a higher
      priority. */
  lemma PresetsAgreeWithRespond(i: nat)
    requires i < |Presets()|
    ensures Classify(Presets()[i]) == Some(Faq.Topics[i])
  {
    if i == 0 {
      FeeQuestionClassified();
    } else if i == 1 {
      BookQuestionClassified();
    } else {
      ReportQuestionClassified();
    }
  }

  lemma FeeQuestionClassified()
    ensures Classify(Faq.Question(Faq.Fees)) == Some(Faq.Fees)
  {
    FeeQuestionMentionsFee();
    RespondPriority(Faq.Question(Faq.Fees));
  }

  lemma BookQuestionClassified()
    ensures Classify(Faq.Question(Faq.Booking)) == Some(Faq.Booking)
  {
    BookQuestionLacksFee();
    BookQuestionMentionsBooking();
    RespondPriority(Faq.Question(Faq.Booking));
  }

  lemma ReportQuestionClassified()
    ensures Classify(Faq.Question(Faq.Reports)) == Some(Faq.Reports)
  {
    ReportQuestionLacksFee();
    ReportQuestionLacksBooking();
    ReportQuestionMentionsReport();
    RespondPriority(Faq.Question(Faq.Reports));
  }

  /** The rule is not a lookup: a typed "What if I need to reschedule?" gets
      the default reply, although the table has an answer for that question. */
  lemma RescheduleNotRecognised()
    ensures Classify(Faq.Question(Faq.Rescheduling)) == None
  {
    RescheduleQuestionLacksFee();
    RescheduleQuestionLacksBooking();
    RescheduleQuestionLacksReport();
    RespondPriority(Faq.Question(Faq.Rescheduling));
  }

  // Which keyword groups the first four questions mention once lowercased.

  lemma LowerFeeQuestion() ensures Lower(Faq.Question(Faq.Fees)) == "what are your consultation fees?" {}

  lemma FeeQuestionMentionsFee() ensures MentionsFee(Faq.Question(Faq.Fees)) {
    LowerFeeQuestion();
    OccursAtPlace("what are your consultation fees?", "fee", 27);
  }

  lemma LowerBookQuestion() ensures Lower(Faq.Question(Faq.Booking)) == "how do i book an appointment?" {}

  lemma BookQuestionLacksFee() ensures !MentionsFee(Faq.Question(Faq.Booking)) {
    assert !Occurs("how do i book an appointment?", "fee") && !Occurs("how do i book an appointment?", "cost") && !Occurs("how do i book an appointment?", "price") by {
      NotOccursPair("how do i book an appointment?", "fee", 1);
      NotOccursPair("how do i book an appointment?", "cost", 1);
      NotOccursPair("how do i book an appointment?", "price", 1);
    }
    LowerBookQuestion();
  }

  lemma BookQuestionMentionsBooking() ensures MentionsBooking(Faq.Question(Faq.Booking)) {
    LowerBookQuestion();
    OccursAtPlace("how do i book an appointment?", "book", 9);
  }

  lemma LowerReportQuestion() ensures Lower(Faq.Question(Faq.Reports)) == "can i upload my medical reports?" {}

  lemma ReportTextLacksFeeWords()
    ensures !Occurs("can i upload my medical reports?", "fee")
    ensures !Occurs("can i upload my medical reports?", "cost")
    ensures !Occurs("can i upload my medical reports?", "price")
  {
    NotOccursPair("can i upload my medical reports?", "fee", 1);
    NotOccursPair("can i upload my medical reports?", "cost", 1);
    NotOccursPair("can i upload my medical reports?", "price", 1);
  }

  lemma ReportQuestionLacksFee() ensures !MentionsFee(Faq.Question(Faq.Reports)) {
    ReportTextLacksFeeWords();
    LowerReportQuestion();
  }

  lemma ReportQuestionLacksBooking() ensures !MentionsBooking(Faq.Question(Faq.Reports)) {
    assert !Occurs("can i upload my medical reports?", "book") && !Occurs("can i upload my medical reports?", "appointment") by {
      NotOccursPair("can i upload my medical reports?", "book", 1);
      NotOccursPair("can i upload my medical reports?", "appointment", 1);
    }
    LowerReportQuestion();
  }

  lemma ReportQuestionMentionsReport() ensures MentionsReport(Faq.Question(Faq.Reports)) {
    LowerReportQuestion();
    OccursAtPlace("can i upload my medical reports?", "report", 24);
  }

  lemma LowerRescheduleQuestion() ensures Lower(Faq.Question(Faq.Rescheduling)) == "what if i need to reschedule?" {}

  lemma RescheduleQuestionLacksFee() ensures !MentionsFee(Faq.Question(Faq.Rescheduling)) {
    assert !Occurs("what if i need to reschedule?", "fee") && !Occurs("what if i need to reschedule?", "cost") && !Occurs("what if i need to reschedule?", "price") by {
      NotOccursPair("what if i need to reschedule?", "fee", 1);
      NotOccursPair("what if i need to reschedule?", "cost", 1);
      NotOccursPair("what if i need to reschedule?", "price", 1);
    }
    LowerRescheduleQuestion();
  }

  lemma RescheduleQuestionLacksBooking() ensures !MentionsBooking(Faq.Question(Faq.Rescheduling)) {
    assert !Occurs("what if i need to reschedule?", "book") && !Occurs("what if i need to reschedule?", "appointment") by {
      NotOccursPair("what if i need to reschedule?", "book", 1);
      NotOccursPair("what if i need to reschedule?", "appointment", 1);
    }
    LowerRescheduleQuestion();
  }

  lemma RescheduleQuestionLacksReport() ensures !MentionsReport(Faq.Question(Faq.Rescheduling)) {
    assert !Occurs("what if i need to reschedule?", "report") && !Occurs("what if i need to reschedule?", "upload") by {
      NotOccursPair("what if i need to reschedule?", "report", 2);
      NotOccursPair("what if i need to reschedule?", "upload", 1);
    }
    LowerRescheduleQuestion();
  }
  /** An answer entry that belongs to the question before it: the keyword
      reply to a typed question or the table answer of a clicked one. */
  ghost predicate Answers(question: string, answer: string) {
    answer == Respond(question) || Faq.Lookup(question) == Some(answer)
  }

  /** The shape of every transcript: the greeting, then question/answer pairs
      in which each answer answers its question. */
  ghost predicate WellFormed(t: seq<Entry>) {
    && |t| % 2 == 1
    && t[0] == Greeting
    && (forall i :: 1 <= i < |t| ==> t[i].role == if i % 2 == 1 then Question else Answer)
    && (forall i :: 2 <= i < |t| && i % 2 == 0 ==> Answers(t[i - 1].text, t[i].text))
  }

  /** Whatever relation `ok` the pairs of a transcript keep, appending a
      question and an answer related by `ok` keeps it at every even index. */
  lemma AppendKeepsPairs(t: seq<Entry>, question: string, answer: string, ok: (string, string) -> bool)
    requires |t| % 2 == 1
    requires forall i :: 2 <= i < |t| && i % 2 == 0 ==> ok(t[i - 1].text, t[i].text)
    requires ok(question, answer)
    ensures forall i :: 2 <= i < |t| + 2 && i % 2 == 0 ==>
              ok((t + [Entry(Question, question), Entry(Answer, answer)])[i - 1].text,
                 (t + [Entry(Question, question), Entry(Answer, answer)])[i].text)
  {
    var t' := t + [Entry(Question, question), Entry(Answer, answer)];
    forall i | 2 <= i < |t'| && i % 2 == 0 ensures ok(t'[i - 1].text, t'[i].text) {
      if i < |t| {
        assert t'[i - 1] == t[i - 1] && t'[i] == t[i];
      } else {
        assert t'[i - 1].text == question && t'[i].text == answer;
      }
    }
  }

  /** Appending a question and an answer keeps the first entry and the
      alternation of roles. */
  lemma AppendKeepsRoles(t: seq<Entry>, question: string, answer: string)
    requires |t| % 2 == 1
    requires forall i :: 1 <= i < |t| ==> t[i].role == if i % 2 == 1 then Question else Answer
    ensures (t + [Entry(Question, question), Entry(Answer, answer)])[0] == t[0]
    ensures forall i :: 1 <= i < |t| + 2 ==>
              (t + [Entry(Question, question), Entry(Answer, answer)])[i].role == if i % 2 == 1 then Question else Answer
  {
    var t' := t + [Entry(Question, question), Entry(Answer, answer)];
    forall i | 1 <= i < |t'| ensures t'[i].role == if i % 2 == 1 then Question else Answer {
      if i < |t| { assert t'[i] == t[i]; }
    }
  }

  /** Appending a question and an answer that answers it keeps the shape. */
  lemma AppendPair(t: seq<Entry>, question: string, answer: string)
    requires WellFormed(t)
    requires Answers(question, answer)
    ensures WellFormed(t + [Entry(Question, question), Entry(Answer, answer)])
  {
    AppendKeepsRoles(t, question, answer);
    AppendKeepsPairs(t, question, answer, Answers);
  }

  /** The chat widget: its transcript and the text in its input box. */
  class FunctionalChat {
    var transcript: seq<Entry>
    var input: string

    ghost predicate Valid()
      reads this
    {
      WellFormed(transcript)
    }

    /** A fresh widget shows only the greeting and an empty input. */
    constructor ()
      ensures Valid()
      ensures transcript == [Greeting] && input == ""
    {
      transcript := [Greeting];
      input := "";
    }

    /** Typing into the input box replaces its text. */
    method SetInput(text: string)
      modifies this
      ensures transcript == old(transcript) && input == text
    {
      input := text;
    }

    /** A preset click appends the question and then the answer stored
        under it. */
    method ClickQuestion(question: string)
      requires Valid()
      requires Faq.Lookup(question).Some?
      modifies this
      ensures Valid()
      ensures transcript == old(transcript) + [Entry(Question, question), Entry(Answer, Faq.Lookup(question).value)]
      ensures input == old(input)
    {
      var answer := Faq.Lookup(question).value;
      AppendPair(transcript, question, answer);
      transcript := transcript + [Entry(Question, question), Entry(Answer, answer)];
    }

    /** Sending ignores a blank input; otherwise it appends the input as typed
        and the keyword reply, and then empties the input box. */
    method Send()
      requires Valid()
      modifies this
      ensures Valid()
      ensures Trim(old(input)) == "" ==> transcript == old(transcript) && input == old(input)
      ensures Trim(old(input)) != "" ==>
                transcript == old(transcript) + [Entry(Question, old(input)), Entry(Answer, Respond(old(input)))]
                && input == ""
    {
      if Trim(input) == "" {
        return;
      }
      var response := Respond(input);
      AppendPair(transcript, input, response);
      transcript := transcript + [Entry(Question, input), Entry(Answer, response)];
      input := "";
    }
  }
}
