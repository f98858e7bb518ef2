/** An optional value: a JavaScript `undefined`/`null` or a present value. */
module Opt {
  datatype Option<+T> = None | Some(value: T)
}

/**
 * The notification surface.  A component's toasts are the notifications it
 * has fired, in order; firing one appends it to the component's log.
 */
module Toasts {
  datatype Toast = Toast(title: string, description: string, destructive: bool)
}

/**
 * The question/answer table shared, word for word, by the scripted FAQ chat
 * (`faqData`) and the pre-consultation chat (`quickQuestions` and
 * `quickAnswers`).  Each entry is named by a topic; the order of `Topics` is
 * the order in which the keys were written, which is the order in which
 * `Object.keys` lists them.
 */
module Faq {
  import opened Opt

  datatype Topic = Fees | Booking | Reports | Rescheduling | Privacy | Prescriptions

  /** The keys in the order they were written. */
  const Topics: seq<Topic> := [Fees, Booking, Reports, Rescheduling, Privacy, Prescriptions]

  /** The key of an entry. */
  function Question(t: Topic): string {
    match t
    case Fees => "What are your consultation fees?"
    case Booking => "How do I book an appointment?"
    case Reports => "Can I upload my medical reports?"
    case Rescheduling => "What if I need to reschedule?"
    case Privacy => "Are consultations confidential?"
    case Prescriptions => "Do you provide prescriptions online?"
  }

  /** The value of an entry. */
  function Answer(t: Topic): string {
    match t
    case Fees => "Our video consultations start from ₹500 for 15 minutes and ₹800 for 30 minutes. In-person appointments vary by doctor and location."
    case Booking => "You can book through our app by selecting 'Find Nearby Doctors' or 'Video Consultation', choose your preferred doctor, date and time."
    case Reports => "Yes! You can upload reports in PDF, JPG, or PNG format during the booking process or before your consultation."
    case Rescheduling => "You can reschedule up to 2 hours before your appointment through the app or by calling our reception."
    case Privacy => "Absolutely! All consultations are completely confidential and follow strict medical privacy guidelines."
    case Prescriptions => "Yes, our doctors can provide digital prescriptions after video consultations when medically appropriate."
  }

  /** Every topic is listed exactly once. */
  lemma TopicsComplete(t: Topic)
    ensures t in Topics
    ensures forall i, j :: 0 <= i < j < |Topics| ==> Topics[i] != Topics[j]
  {
  }

  /** No two entries share a key. */
  lemma QuestionsDistinct(a: Topic, b: Topic)
    requires a != b
    ensures Question(a) != Question(b)
  {
    // The keys of equal length start with different letters.
    match a
    case Fees => assert |Question(b)| != 32 || Question(b)[0] != 'W';
    case Booking => assert |Question(b)| != 29 || Question(b)[0] != 'H';
    case Reports => assert |Question(b)| != 32 || Question(b)[0] != 'C';
    case Rescheduling => assert |Question(b)| != 29 || Question(b)[0] != 'W';
    case Privacy => assert |Question(b)| != 31;
    case Prescriptions => assert |Question(b)| != 36;
  }

  /** The first of `ts` whose key is `q`, searching in order. */
  function Find(ts: seq<Topic>, q: string): (r: Option<Topic>)
    ensures r.Some? ==> r.value in ts && Question(r.value) == q
    ensures r.None? ==> forall t :: t in ts ==> Question(t) != q
  {
    if ts == [] then None
    else if Question(ts[0]) == q then Some(ts[0])
    else Find(ts[1..], q)
  }

  /** `faqData[q]`: the answer stored under the key `q`, or `None` (for
      JavaScript, `undefined`) when `q` is not a key. */
  function Lookup(q: string): (r: Option<string>)
    ensures r.None? <==> forall t :: Question(t) != q
    ensures r.Some? ==> exists t :: Question(t) == q && r.value == Answer(t)
  {
    match Find(Topics, q)
    case Some(t) =>
      Some(Answer(t))
    case None =>
      assert forall t :: Question(t) != q by {
        forall t ensures Question(t) != q {
          TopicsComplete(t);
        }
      }
      None
  }

  /** Searching a list that holds `t` for the key of `t` finds `t`. */
  lemma {:induction false} FindQuestion(ts: seq<Topic>, t: Topic)
    requires t in ts
    ensures Find(ts, Question(t)) == Some(t)
  {
    if ts[0] != t {
      QuestionsDistinct(ts[0], t);
      FindQuestion(ts[1..], t);
    }
  }

  /** Each key finds the answer written beside it. */
  lemma LookupQuestion(t: Topic)
    ensures Lookup(Question(t)) == Some(Answer(t))
  {
    TopicsComplete(t);
    FindQuestion(Topics, t);
  }
}
