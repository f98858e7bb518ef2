/**
 * The pre-consultation page: a chat whose bot answers typed messages after a
 * delay, a report upload with its confirmation dialog, and the two buttons
 * that open the booking dialog for a video consultation.
 *
 * The delay is modelled by a queue: sending a message schedules its reply,
 * and `FireReply` is the timer firing for the oldest scheduled reply.
 */
module Consult {
  import opened Opt
  import opened Text
  import Faq
  import Booking

  datatype Sender = User | Bot
  datatype Message = Message(sender: Sender, text: string)

  /** The message every chat starts with. */
  const Greeting := Message(Bot, "Hi! I'm here to help you prepare for your consultation. What brings you here today?")

  /** What a typed message is about, as far as the bot can tell. */
  datatype Concern = Pain | Period | Pregnancy

  /** The keyword rule for typed messages, checked in this order on the
      lowercased message; `None` stands for the general reply.  Pain comes
      first, whatever else the message mentions, then periods, then
      pregnancy. */
  function Classify(message: string): (r: Option<Concern>)
    ensures r == Some(Pain) <==> MentionsPain(message)
    ensures r == Some(Period) <==> !MentionsPain(message) && MentionsPeriod(message)
    ensures r == Some(Pregnancy) <==> !MentionsPain(message) && !MentionsPeriod(message) && MentionsPregnancy(message)
    ensures r == None <==> !MentionsPain(message) && !MentionsPeriod(message) && !MentionsPregnancy(message)
  {
    var lower := Lower(message);
    ContainsOccurs(lower, "pain");
    ContainsOccurs(lower, "hurt");
    ContainsOccurs(lower, "period");
    ContainsOccurs(lower, "menstrual");
    ContainsOccurs(lower, "pregnant");
    ContainsOccurs(lower, "pregnancy");
    if Contains(lower, "pain") || Contains(lower, "hurt") then Some(Pain)
    else if Contains(lower, "period") || Contains(lower, "menstrual") then Some(Period)
    else if Contains(lower, "pregnant") || Contains(lower, "pregnancy") then Some(Pregnancy)
    else None
  }

  /** The reply for each concern, and the general reply. */
  function ReplyText(c: Option<Concern>): string {
    match c
    case Some(Pain) => "I understand you're experiencing pain. This is definitely something our gynecologist can help with. Please describe the intensity and location during your consultation."
    case Some(Period) => "Menstrual concerns are very common. Our doctors specialize in period-related issues and can provide personalized advice."
    case Some(Pregnancy) => "Pregnancy-related questions are important. Our specialists can guide you through all stages and concerns."
    case None => "Thank you for sharing that. Our specialists will be able to help you better during the consultation."
  }

  /** The bot's reply to a typed message. */
  function BotReply(message: string): (r: string)
    ensures MentionsPain(message) ==> r == ReplyText(Some(Pain))
    ensures !MentionsPain(message) && MentionsPeriod(message) ==> r == ReplyText(Some(Period))
    ensures !MentionsPain(message) && !MentionsPeriod(message) && MentionsPregnancy(message) ==>
              r == ReplyText(Some(Pregnancy))
    ensures !MentionsPain(message) && !MentionsPeriod(message) && !MentionsPregnancy(message) ==>
              r == ReplyText(None)
  {
    ReplyText(Classify(message))
  }

  /** The lowercased message mentions pain, periods or pregnancy. */
  ghost predicate MentionsPain(message: string) {
    var lower := Lower(message);
    Occurs(lower, "pain") || Occurs(lower, "hurt")
  }

  ghost predicate MentionsPeriod(message: string) {
    var lower := Lower(message);
    Occurs(lower, "period") || Occurs(lower, "menstrual")
  }

  ghost predicate MentionsPregnancy(message: string) {
    var lower := Lower(message);
    Occurs(lower, "pregnant") || Occurs(lower, "pregnancy")
  }

  /** "Pregnancy" contains "pregnan" but not "pregnant"; it is still caught by
      the second keyword of its group. */
  lemma PregnancyMessage(a: string, b: string)
    requires !MentionsPain(a + "pregnancy" + b) && !MentionsPeriod(a + "pregnancy" + b)
    ensures Classify(a + "pregnancy" + b) == Some(Pregnancy)
  {
    var m := a + "pregnancy" + b;
    assert Lower(m)[|a|..|a| + 9] == "pregnancy";
    assert OccursAt(Lower(m), "pregnancy", |a|);
  }

  /** A message that mentions pain gets the pain reply even when it also
      mentions periods, as "period pain" does. */
  lemma PainBeatsPeriod(a: string, b: string)
    ensures Classify(a + "pain" + b) == Some(Pain)
  {
    var m := a + "pain" + b;
    assert Lower(m)[|a|..|a| + 4] == "pain";
    assert OccursAt(Lower(m), "pain", |a|);
  }

  /** `quickQuestions`, the page's own list of six questions, written apart
      from the answer table; in order, they are the table's keys. */
  function QuickQuestions(): (qs: seq<string>)
    ensures |qs| == |Faq.Topics| == 6
    ensures forall i :: 0 <= i < |qs| ==> qs[i] == Faq.Question(Faq.Topics[i])
  {
    [
      "What are your consultation fees?",
      "How do I book an appointment?",
      "Can I upload my medical reports?",
      "What if I need to reschedule?",
      "Are consultations confidential?",
      "Do you provide prescriptions online?"
    ]
  }

  /** Every quick question has its own answer in the table. */
  lemma QuickQuestionsAnswered(i: nat)
    requires i < |QuickQuestions()|
    ensures Faq.Lookup(QuickQuestions()[i]) == Some(Faq.Answer(Faq.Topics[i]))
  {
    Faq.LookupQuestion(Faq.Topics[i]);
  }

  /** The number of messages from `s`. */
  function Count(chat: seq<Message>, s: Sender): (n: nat)
    ensures n <= |chat|
  {
    if chat == [] then 0 else (if chat[0].sender == s then 1 else 0) + Count(chat[1..], s)
  }

  lemma {:induction false} CountAppend(a: seq<Message>, b: seq<Message>, s: Sender)
    ensures Count(a + b, s) == Count(a, s) + Count(b, s)
  {
    if a == [] {
      assert a + b == b;
    } else {
      assert (a + b)[0] == a[0] && (a + b)[1..] == a[1..] + b;
      CountAppend(a[1..], b, s);
    }
  }

  /** The chat starts with the greeting; the user's messages plus one (the
      greeting) balance the bot's messages plus the replies still to come
      (those of `scheduled[fired..]`); and each message with a reply still to
      come is in the chat as a message the user sent. */
  ghost predicate Answered(chat: seq<Message>, scheduled: seq<string>, fired: nat) {
    && chat != [] && chat[0] == Greeting
    && fired <= |scheduled|
    && Count(chat, User) + 1 == Count(chat, Bot) + (|scheduled| - fired)
    && (forall i :: fired <= i < |scheduled| ==> Message(User, scheduled[i]) in chat)
  }

  /** A quick question and its answer keep the chat answered. */
  lemma AnsweredPair(chat: seq<Message>, scheduled: seq<string>, fired: nat, question: string, answer: string)
    requires Answered(chat, scheduled, fired)
    ensures Answered(chat + [Message(User, question), Message(Bot, answer)], scheduled, fired)
  {
    var pair := [Message(User, question), Message(Bot, answer)];
    CountAppend(chat, pair, User);
    CountAppend(chat, pair, Bot);
    assert (chat + pair)[0] == chat[0];
    forall i | fired <= i < |scheduled| ensures Message(User, scheduled[i]) in chat + pair {
      assert Message(User, scheduled[i]) in chat;
    }
  }

  /** A sent message, with its reply scheduled, keeps the chat answered. */
  lemma AnsweredSend(chat: seq<Message>, scheduled: seq<string>, fired: nat, message: string)
    requires Answered(chat, scheduled, fired)
    ensures Answered(chat + [Message(User, message)], scheduled + [message], fired)
  {
    var sent := [Message(User, message)];
    CountAppend(chat, sent, User);
    CountAppend(chat, sent, Bot);
    assert (chat + sent)[0] == chat[0];
    assert (chat + sent)[|chat|] == Message(User, message);
    forall i | fired <= i < |scheduled| + 1 ensures Message(User, (scheduled + [message])[i]) in chat + sent {
      if i < |scheduled| {
        assert Message(User, scheduled[i]) in chat;
      }
    }
  }

  /** The oldest reply still to come, once it arrives, keeps the chat answered. */
  lemma AnsweredReply(chat: seq<Message>, scheduled: seq<string>, fired: nat, reply: string)
    requires Answered(chat, scheduled, fired)
    requires fired < |scheduled|
    ensures Answered(chat + [Message(Bot, reply)], scheduled, fired + 1)
  {
    var m := [Message(Bot, reply)];
    CountAppend(chat, m, User);
    CountAppend(chat, m, Bot);
    assert (chat + m)[0] == chat[0];
    forall i | fired + 1 <= i < |scheduled| ensures Message(User, scheduled[i]) in chat + m {
      assert Message(User, scheduled[i]) in chat;
    }
  }

  /** The doctor named in the booking dialog this page opens. */
  const SpecialistName := "Video Consultation Specialist"

  /** The page's state. */
  class VideoConsult {
    var symptoms: string
    var selectedFile: Option<string>
    var bookingOpen: bool
    var reportOpen: bool
    var bookingType: Booking.Kind
    var chat: seq<Message>
    var current: string
    /** Every message sent, in order: each one scheduled a reply. */
    var scheduled: seq<string>
    /** How many of the scheduled replies have arrived. */
    var fired: nat
    /** The booking dialog the page renders. */
    const booking: Booking.BookingModal

    ghost predicate Valid()
      reads this, booking
    {
      Answered(chat, scheduled, fired) && booking.Valid()
    }

    constructor ()
      ensures Valid()
      ensures symptoms == "" && selectedFile == None && !bookingOpen && !reportOpen
      ensures bookingType == Booking.Video && chat == [Greeting] && current == "" && scheduled == [] && fired == 0
      ensures fresh(booking) && booking.date == "" && booking.time == "" && booking.toasts == []
    {
      symptoms := "";
      selectedFile := None;
      bookingOpen := false;
      reportOpen := false;
      bookingType := Booking.Video;
      chat := [Greeting];
      current := "";
      scheduled := [];
      fired := 0;
      booking := new Booking.BookingModal();
    }

    /** The symptoms text area. */
    method SetSymptoms(text: string)
      modifies this
      ensures symptoms == text
      ensures selectedFile == old(selectedFile) && bookingOpen == old(bookingOpen) && reportOpen == old(reportOpen)
      ensures bookingType == old(bookingType) && chat == old(chat) && current == old(current) && scheduled == old(scheduled) && fired == old(fired)
    {
      symptoms := text;
    }

    /** The chat input. */
    method SetMessage(text: string)
      modifies this
      ensures current == text
      ensures symptoms == old(symptoms) && selectedFile == old(selectedFile) && bookingOpen == old(bookingOpen)
      ensures reportOpen == old(reportOpen) && bookingType == old(bookingType) && chat == old(chat) && scheduled == old(scheduled) && fired == old(fired)
    {
      current := text;
    }

    /** Choosing files keeps the first one and opens the confirmation
        dialog; an empty choice changes nothing. */
    method Upload(files: seq<string>)
      modifies this
      ensures files == [] ==> selectedFile == old(selectedFile) && reportOpen == old(reportOpen)
      ensures files != [] ==> selectedFile == Some(files[0]) && reportOpen
      ensures symptoms == old(symptoms) && bookingOpen == old(bookingOpen) && bookingType == old(bookingType)
      ensures chat == old(chat) && current == old(current) && scheduled == old(scheduled) && fired == old(fired)
    {
      if files != [] {
        selectedFile := Some(files[0]);
        reportOpen := true;
      }
    }

    /** "Remove Upload": forget the file and close the dialog. */
    method CancelUpload()
      modifies this
      ensures selectedFile == None && !reportOpen
      ensures symptoms == old(symptoms) && bookingOpen == old(bookingOpen) && bookingType == old(bookingType)
      ensures chat == old(chat) && current == old(current) && scheduled == old(scheduled) && fired == old(fired)
    {
      selectedFile := None;
      reportOpen := false;
    }

    /** "Continue", or dismissing the dialog: close it and keep the file. */
    method CloseReport()
      modifies this
      ensures !reportOpen && selectedFile == old(selectedFile)
      ensures symptoms == old(symptoms) && bookingOpen == old(bookingOpen) && bookingType == old(bookingType)
      ensures chat == old(chat) && current == old(current) && scheduled == old(scheduled) && fired == old(fired)
    {
      reportOpen := false;
    }

    /** "Start Video Call": open the booking dialog for a video consultation. */
    method VideoCall()
      modifies this
      ensures bookingType == Booking.Video && bookingOpen
      ensures symptoms == old(symptoms) && selectedFile == old(selectedFile) && reportOpen == old(reportOpen)
      ensures chat == old(chat) && current == old(current) && scheduled == old(scheduled) && fired == old(fired)
    {
      bookingType := Booking.Video;
      bookingOpen := true;
    }

    /** "📅 Schedule Appointment": the same effect as `VideoCall`. */
    method Schedule()
      modifies this
      ensures bookingType == Booking.Video && bookingOpen
      ensures symptoms == old(symptoms) && selectedFile == old(selectedFile) && reportOpen == old(reportOpen)
      ensures chat == old(chat) && current == old(current) && scheduled == old(scheduled) && fired == old(fired)
    {
      bookingType := Booking.Video;
      bookingOpen := true;
    }

    /** A quick question appends the question and its table answer at once. */
    method QuickQuestion(question: string)
      requires Valid()
      requires Faq.Lookup(question).Some?
      modifies this
      ensures Valid()
      ensures chat == old(chat) + [Message(User, question), Message(Bot, Faq.Lookup(question).value)]
      ensures scheduled == old(scheduled) && fired == old(fired) && current == old(current)
      ensures symptoms == old(symptoms) && selectedFile == old(selectedFile)
      ensures bookingOpen == old(bookingOpen) && reportOpen == old(reportOpen) && bookingType == old(bookingType)
    {
      var answer := Faq.Lookup(question).value;
      AnsweredPair(chat, scheduled, fired, question, answer);
      chat := chat + [Message(User, question), Message(Bot, answer)];
    }

    /** Sending ignores a blank message.  Otherwise the message appears at
        once, its reply is scheduled and the input is emptied. */
    method Send()
      requires Valid()
      modifies this
      ensures Valid()
      ensures fired == old(fired)
      ensures Trim(old(current)) == "" ==> chat == old(chat) && scheduled == old(scheduled) && current == old(current)
      ensures Trim(old(current)) != "" ==>
                chat == old(chat) + [Message(User, old(current))]
                && scheduled == old(scheduled) + [old(current)] && current == ""
      ensures symptoms == old(symptoms) && selectedFile == old(selectedFile)
      ensures bookingOpen == old(bookingOpen) && reportOpen == old(reportOpen) && bookingType == old(bookingType)
    {
      if Trim(current) == "" {
        return;
      }
      AnsweredSend(chat, scheduled, fired, current);
      chat := chat + [Message(User, current)];
      scheduled := scheduled + [current];
      current := "";
    }

    /** The oldest reply still to come arrives: the bot answers the message
        as it was when it was sent. */
    method FireReply()
      requires Valid()
      requires fired < |scheduled|
      modifies this
      ensures Valid()
      ensures chat == old(chat) + [Message(Bot, BotReply(old(scheduled[fired])))]
      ensures fired == old(fired) + 1 && scheduled == old(scheduled) && current == old(current)
      ensures symptoms == old(symptoms) && selectedFile == old(selectedFile)
      ensures bookingOpen == old(bookingOpen) && reportOpen == old(reportOpen) && bookingType == old(bookingType)
    {
      Deliver(BotReply(scheduled[fired]));
    }

    /** The step of `FireReply` that appends `reply` as the reply to the
        oldest message still waiting; no handler of the page calls it on its
        own. */
    method Deliver(reply: string)
      requires Valid()
      requires fired < |scheduled|
      modifies this
      ensures Valid()
      ensures chat == old(chat) + [Message(Bot, reply)]
      ensures fired == old(fired) + 1 && scheduled == old(scheduled) && current == old(current)
      ensures symptoms == old(symptoms) && selectedFile == old(selectedFile)
      ensures bookingOpen == old(bookingOpen) && reportOpen == old(reportOpen) && bookingType == old(bookingType)
    {
      AnsweredReply(chat, scheduled, fired, reply);
      chat := chat + [Message(Bot, reply)];
      fired := fired + 1;
    }

    /** Confirming in the booking dialog: the dialog decides, and the page
        closes it when asked to. */
    method ConfirmBooking()
      requires Valid()
      modifies this, booking
      ensures Valid()
      ensures old(booking.date) == "" || old(booking.time) == "" ==>
                bookingOpen == old(bookingOpen) && booking.toasts == old(booking.toasts) + [Booking.MissingToast]
                && booking.date == old(booking.date) && booking.time == old(booking.time)
      ensures old(booking.date) != "" && old(booking.time) != "" ==>
                !bookingOpen
                && booking.toasts == old(booking.toasts)
                  + [Booking.SuccessToast(old(bookingType), SpecialistName, old(booking.date), old(booking.time))]
                && booking.date == "" && booking.time == ""
      ensures bookingType == old(bookingType) && chat == old(chat) && scheduled == old(scheduled) && fired == old(fired) && current == old(current)
      ensures symptoms == old(symptoms) && selectedFile == old(selectedFile) && reportOpen == old(reportOpen)
    {
      var close := booking.Confirm(bookingType, SpecialistName);
      if close {
        bookingOpen := false;
      }
    }

    /** Cancelling or dismissing the booking dialog closes it and keeps its draft. */
    method CancelBooking()
      requires Valid()
      modifies this
      ensures Valid()
      ensures !bookingOpen
      ensures bookingType == old(bookingType) && chat == old(chat) && scheduled == old(scheduled) && fired == old(fired) && current == old(current)
      ensures symptoms == old(symptoms) && selectedFile == old(selectedFile) && reportOpen == old(reportOpen)
    {
      var close := booking.Cancel();
      if close {
        bookingOpen := false;
      }
    }
  }
}
