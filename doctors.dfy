/**
 * The practitioner records.  The location page and the symptom filter each
 * write the same three records out in full; the model keeps one copy of each.
 */
module Doctors {

  /** A practitioner.  The rating is kept in tenths (4.7 is 47). */
  datatype Doctor = Doctor(
    id: int,
    name: string,
    rating: nat,
    clinic: string,
    address: string,
    timings: string,
    specialization: string,
    image: string,
    phone: string)

  /** The placeholder picture every record carries: woman, zero-width
      joiner, medical symbol, emoji presentation selector. */
  const Placeholder: string := "\U{1F469}\U{200D}\U{2695}\U{FE0F}"

  const Radhika: Doctor := Doctor(1, "Dr. Radhika Sen", 47, "Lotus Women's Clinic", "Delhi",
    "Mon-Sat, 10AM\U{2013}6PM", "PCOS Expert", Placeholder, "+91-9876543210")

  const Nidhi: Doctor := Doctor(2, "Dr. Nidhi Kapoor", 48, "Bliss Women's Hospital", "Mumbai",
    "Mon-Fri, 9AM\U{2013}5PM", "Pregnancy Support", Placeholder, "+91-9876543211")

  const Anjali: Doctor := Doctor(3, "Dr. Anjali Sharma", 46, "Care Women's Center", "Bangalore",
    "Tue-Sun, 11AM\U{2013}7PM", "Infection Specialist", Placeholder, "+91-9876543212")
}
