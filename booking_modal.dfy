/**
 * The booking dialog.  It keeps a draft date and time; confirming either
 * reports the missing field or announces the booking, asks its owner to
 * close it and clears the draft.  Whether the dialog is open belongs to its
 * owner, so closing is modelled as a request the dialog returns.
 */
module Booking {
  import opened Text
  import opened Toasts

  /** What is being booked. */
  datatype Kind = Call | Video | Appointment

  /** The value of the `bookingType` prop, as it is spliced into messages. */
  function KindText(k: Kind): string {
    match k
    case Call => "call"
    case Video => "video"
    case Appointment => "appointment"
  }

  /** The word after "Book " in the dialog title. */
  function TitleWord(k: Kind): string {
    match k
    case Call => "Phone Call"
    case Video => "Video Consultation"
    case Appointment => "Appointment"
  }

  /** The dialog title. */
  function Title(k: Kind): (t: string)
    ensures |t| > 5 && t[..5] == "Book " && t[5..] == TitleWord(k)
  {
    "Book " + TitleWord(k)
  }

  /** The title tells the three kinds apart. */
  lemma TitleDistinguishesKinds(a: Kind, b: Kind)
    requires Title(a) == Title(b)
    ensures a == b
  {
    assert TitleWord(a) == Title(a)[5..] == Title(b)[5..] == TitleWord(b);
    assert |TitleWord(a)| == |TitleWord(b)|;
  }

  /** The slots offered, in the order shown. */
  const TimeSlots: seq<string> := [
    "9:00 AM", "9:30 AM", "10:00 AM", "10:30 AM", "11:00 AM", "11:30 AM",
    "2:00 PM", "2:30 PM", "3:00 PM", "3:30 PM", "4:00 PM", "4:30 PM", "5:00 PM"
  ]

  /** No two positions of `s` hold the same slot. */
  ghost predicate PairwiseDistinct(s: seq<string>) {
    forall i, j :: 0 <= i < j < |s| ==> s[i] != s[j]
  }

  /** Thirteen distinct slots: the first six, from 9:00 AM to 11:30 AM, are
      in the morning, and the last seven, from 2:00 PM to 5:00 PM, in the
      afternoon. */
  lemma TimeSlotsShape()
    ensures |TimeSlots| == 13 && PairwiseDistinct(TimeSlots)
    ensures TimeSlots[0] == "9:00 AM" && TimeSlots[5] == "11:30 AM"
    ensures TimeSlots[6] == "2:00 PM" && TimeSlots[12] == "5:00 PM"
    ensures forall i :: 0 <= i < 6 ==> TimeSlots[i][|TimeSlots[i]| - 2..] == "AM"
    ensures forall i :: 6 <= i < 13 ==> TimeSlots[i][|TimeSlots[i]| - 2..] == "PM"
  {
  }

  /** The notification for a confirm with a missing field. */
  const MissingToast := Toast("Please select date and time", "Both date and time are required to book your appointment", true)

  /** The confirmation text: it names the kind, the doctor, the date and the
      time exactly as they were given. */
  function SuccessDescription(kind: Kind, name: string, date: string, time: string): (d: string)
    ensures Occurs(d, KindText(kind)) && Occurs(d, name) && Occurs(d, date) && Occurs(d, time)
  {
    var tail := " has been confirmed. Details sent to your registered email.";
    var fromTime := time + tail;
    var fromDate := date + (" at " + fromTime);
    var fromName := name + (" on " + fromDate);
    var fromKind := KindText(kind) + (" with " + fromName);
    OccursStart(time, tail);
    OccursPrepend(" at ", fromTime, time);
    OccursStart(date, " at " + fromTime);
    OccursPrepend(date, " at " + fromTime, time);
    OccursPrepend(" on ", fromDate, date);
    OccursPrepend(" on ", fromDate, time);
    OccursStart(name, " on " + fromDate);
    OccursPrepend(name, " on " + fromDate, date);
    OccursPrepend(name, " on " + fromDate, time);
    OccursPrepend(" with ", fromName, name);
    OccursPrepend(" with ", fromName, date);
    OccursPrepend(" with ", fromName, time);
    OccursStart(KindText(kind), " with " + fromName);
    OccursPrepend(KindText(kind), " with " + fromName, name);
    OccursPrepend(KindText(kind), " with " + fromName, date);
    OccursPrepend(KindText(kind), " with " + fromName, time);
    OccursPrepend("Your ", fromKind, KindText(kind));
    OccursPrepend("Your ", fromKind, name);
    OccursPrepend("Your ", fromKind, date);
    OccursPrepend("Your ", fromKind, time);
    "Your " + fromKind
  }

  /** The notification for a successful confirm. */
  function SuccessToast(kind: Kind, name: string, date: string, time: string): (t: Toast)
    ensures !t.destructive && t.description == SuccessDescription(kind, name, date, time)
  {
    Toast("Booking Confirmed! ✅", SuccessDescription(kind, name, date, time), false)
  }

  /** The dialog's own state: the draft and the notifications it has fired. */
  class BookingModal {
    var date: string
    var time: string
    var toasts: seq<Toast>

    /** The time is empty or one of the offered slots. */
    ghost predicate Valid()
      reads this
    {
      time == "" || time in TimeSlots
    }

    /** A new dialog has an empty draft. */
    constructor ()
      ensures Valid()
      ensures date == "" && time == "" && toasts == []
    {
      date := "";
      time := "";
      toasts := [];
    }

    /** The date input replaces the draft date with its value. */
    method SelectDate(value: string)
      requires Valid()
      modifies this
      ensures Valid()
      ensures date == value && time == old(time) && toasts == old(toasts)
    {
      date := value;
    }

    /** A slot button sets the draft time to exactly its slot. */
    method SelectTime(slot: string)
      requires slot in TimeSlots
      modifies this
      ensures Valid()
      ensures time == slot && date == old(date) && toasts == old(toasts)
    {
      time := slot;
    }

    /** Confirm.  With a field missing it fires the destructive notice and
        changes nothing else; otherwise it fires the confirmation, asks to be
        closed and clears the draft. */
    method Confirm(kind: Kind, doctorName: string) returns (close: bool)
      requires Valid()
      modifies this
      ensures Valid()
      ensures old(date) == "" || old(time) == "" ==>
                !close && toasts == old(toasts) + [MissingToast] && date == old(date) && time == old(time)
      ensures old(date) != "" && old(time) != "" ==>
                close && toasts == old(toasts) + [SuccessToast(kind, doctorName, old(date), old(time))]
                && date == "" && time == ""
    {
      if date == "" || time == "" {
        toasts := toasts + [MissingToast];
        return false;
      }
      toasts := toasts + [SuccessToast(kind, doctorName, date, time)];
      close := true;
      date := "";
      time := "";
    }

    /** Cancel, and dismissing the dialog, only ask to be closed: the draft
        stays as it was. */
    method Cancel() returns (close: bool)
      ensures close
    {
      close := true;
    }
  }
}
