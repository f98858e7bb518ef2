/**
 * A practitioner's card: the picture chosen by the practitioner's id, and two
 * dialogs, booking and calling the reception, each with its own open flag.
 */
module Card {
  import opened Doctors
  import Booking

  /** `doctorImages`: six ids, of which 5 and 6 reuse the pictures of 1 and 2. */
  const Images: map<int, string> := map[
    1 := "/lovable-uploads/41f02828-87b7-45bb-9b25-97302feddb2f.png",
    2 := "/lovable-uploads/e38ca779-419c-41f2-b04d-993e341151c1.png",
    3 := "/lovable-uploads/853236d1-df52-4484-8cdb-2e7de71513b2.png",
    4 := "/lovable-uploads/a9646c7b-0a9b-42b9-9a64-457a680878ec.png",
    5 := "/lovable-uploads/41f02828-87b7-45bb-9b25-97302feddb2f.png",
    6 := "/lovable-uploads/e38ca779-419c-41f2-b04d-993e341151c1.png"
  ]

  /** `doctorImages[id] || doctorImages[1]`. */
  function ImageFor(id: int): (src: string)
    ensures src in {Images[1], Images[2], Images[3], Images[4]}
  {
    if id in Images then Images[id] else Images[1]
  }

  /** Ids 1 to 6 have a picture of their own entry; every other id is shown
      with the picture of id 1. */
  lemma ImageLookup(id: int)
    ensures 1 <= id <= 6 ==> ImageFor(id) == Images[id]
    ensures !(1 <= id <= 6) ==> ImageFor(id) == ImageFor(1)
  {
  }

  /** Ids 1 and 5 share a picture, as do 2 and 6; ids 1 to 4 have four
      different pictures. */
  lemma SharedImages()
    ensures ImageFor(5) == ImageFor(1) && ImageFor(6) == ImageFor(2)
    ensures forall i, j :: 1 <= i < j <= 4 ==> ImageFor(i) != ImageFor(j)
  {
    assert ImageFor(1)[17] == '4' && ImageFor(2)[17] == 'e';
    assert ImageFor(3)[17] == '8' && ImageFor(4)[17] == 'a';
  }

  /** The card's state.  The booking dialog is rendered with this card's
      practitioner. */
  class DoctorCard {
    const doctor: Doctor
    var bookingOpen: bool
    var callOpen: bool
    var bookingType: Booking.Kind
    const booking: Booking.BookingModal

    /** The kind starts as an appointment and is only ever set to one. */
    ghost predicate Valid()
      reads this, booking
    {
      bookingType == Booking.Appointment && booking.Valid()
    }

    /** Both dialogs start closed. */
    constructor (d: Doctor)
      ensures Valid()
      ensures doctor == d && !bookingOpen && !callOpen && bookingType == Booking.Appointment
      ensures fresh(booking) && booking.date == "" && booking.time == "" && booking.toasts == []
    {
      doctor := d;
      bookingOpen := false;
      callOpen := false;
      bookingType := Booking.Appointment;
      booking := new Booking.BookingModal();
    }

    /** "Call": open the reception dialog, and nothing else. */
    method HandleCall()
      requires Valid()
      modifies this
      ensures Valid()
      ensures callOpen && bookingOpen == old(bookingOpen) && bookingType == old(bookingType)
    {
      callOpen := true;
    }

    /** "Book": an appointment, in the booking dialog; the reception dialog
        is left as it was. */
    method HandleBook()
      requires Valid()
      modifies this
      ensures Valid()
      ensures bookingOpen && bookingType == Booking.Appointment && callOpen == old(callOpen)
    {
      bookingType := Booking.Appointment;
      bookingOpen := true;
    }

    /** Closing the booking dialog clears only its own flag. */
    method CloseBooking()
      requires Valid()
      modifies this
      ensures Valid()
      ensures !bookingOpen && callOpen == old(callOpen) && bookingType == old(bookingType)
    {
      bookingOpen := false;
    }

    /** Closing the reception dialog clears only its own flag. */
    method CloseCall()
      requires Valid()
      modifies this
      ensures Valid()
      ensures !callOpen && bookingOpen == old(bookingOpen) && bookingType == old(bookingType)
    {
      callOpen := false;
    }

    /** Confirming in the booking dialog: the dialog decides with this card's
        practitioner, and the card closes it when asked to. */
    method ConfirmBooking()
      requires Valid()
      modifies this, booking
      ensures Valid()
      ensures old(booking.date) == "" || old(booking.time) == "" ==>
                bookingOpen == old(bookingOpen) && booking.toasts == old(booking.toasts) + [Booking.MissingToast]
                && booking.date == old(booking.date) && booking.time == old(booking.time)
      ensures old(booking.date) != "" && old(booking.time) != "" ==>
                !bookingOpen
                && booking.toasts == old(booking.toasts)
                  + [Booking.SuccessToast(Booking.Appointment, doctor.name, old(booking.date), old(booking.time))]
                && booking.date == "" && booking.time == ""
      ensures callOpen == old(callOpen) && bookingType == old(bookingType)
    {
      var close := booking.Confirm(bookingType, doctor.name);
      if close {
        bookingOpen := false;
      }
    }

    /** Cancelling the booking dialog closes it and keeps its draft. */
    method CancelBooking()
      requires Valid()
      modifies this
      ensures Valid()
      ensures !bookingOpen && callOpen == old(callOpen) && bookingType == old(bookingType)
    {
      var close := booking.Cancel();
      if close {
        bookingOpen := false;
      }
    }
  }
}
