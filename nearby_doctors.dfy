/**
 * The nearby-practitioners page: a fixed list of practitioners and a
 * "use my location" request.  Starting the request raises a loading flag;
 * the request ends in one of three ways (the browser has no geolocation, the
 * position is found, the position is refused), each of which lowers the flag
 * and fires one notification.  The location is stored only when found.
 */
module Nearby {
  import opened Toasts
  import opened Doctors

  /** How the geolocation request answers: a position, already formatted as
      the page shows it, or an error. */
  datatype Fix = Located(formatted: string) | Failed

  const FoundToast: Toast := Toast("Location found!", "Showing gynecologists near you", false)
  const DeniedToast: Toast := Toast("Location access denied", "Please allow location access or search manually", true)
  const UnsupportedToast: Toast := Toast("Geolocation not supported", "Please search manually", true)

  /** The practitioners listed on the page. */
  const Listed: seq<Doctor> := [Radhika, Nidhi, Anjali]

  /** The list holds three practitioners, with the distinct ids 1, 2 and 3. */
  lemma ListedIds()
    ensures |Listed| == 3
    ensures forall i :: 0 <= i < |Listed| ==> Listed[i].id == i + 1
    ensures forall i, j :: 0 <= i < j < |Listed| ==> Listed[i].id != Listed[j].id
  {
  }

  /** The notification each ending fires. */
  function Notice(fix: Fix): (t: Toast)
    ensures t.destructive <==> fix.Failed?
  {
    match fix
    case Located(_) => FoundToast
    case Failed => DeniedToast
  }

  /** The page's state.  The list has no setter, so it is a constant. */
  class NearbyDoctors {
    var location: string
    var isLoading: bool
    var toasts: seq<Toast>
    const doctors: seq<Doctor>

    /** No location, not loading, nothing notified, and the fixed list. */
    constructor ()
      ensures location == "" && !isLoading && toasts == [] && doctors == Listed
    {
      location := "";
      isLoading := false;
      toasts := [];
      doctors := Listed;
    }

    /** The location button, which is disabled while a request is under
        way.  The flag is raised; without geolocation the
        request ends at once with the destructive "not supported" notice,
        otherwise the flag stays raised until the browser answers. */
    method UseLocation(supported: bool)
      requires !isLoading
      modifies this
      ensures location == old(location)
      ensures supported ==> isLoading && toasts == old(toasts)
      ensures !supported ==> !isLoading && toasts == old(toasts) + [UnsupportedToast]
    {
      isLoading := true;
      if !supported {
        isLoading := false;
        toasts := toasts + [UnsupportedToast];
      }
    }

    /** The browser's answer to a request under way: the flag is lowered,
        exactly one notice is fired, destructive on an error, and the
        location is replaced only when a position was found. */
    method Answer(fix: Fix)
      requires isLoading
      modifies this
      ensures !isLoading
      ensures toasts == old(toasts) + [Notice(fix)]
      ensures location == (if fix.Located? then fix.formatted else old(location))
    {
      match fix
      case Located(formatted) =>
        location := formatted;
        isLoading := false;
        toasts := toasts + [FoundToast];
      case Failed =>
        isLoading := false;
        toasts := toasts + [DeniedToast];
    }
  }
}
