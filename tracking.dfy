/** The booking-tracking page: the booking id typed or passed in the URL,
    the check made before tracking starts, closing the tracker, and the demo
    button. The live map itself is not modelled. */
module Tracking {
  import opened Text

  const EmptyIdError := "Please enter a valid booking ID"
  const FormatError := "Invalid booking ID format"
  const DemoId := "IMC-2024-DEMO"

  /** The check `handleTrackBooking` makes: the error it shows, or None
      when tracking may start. */
  function ValidateBookingId(id: string): Option<string>
  {
    if Trim(id) == "" then Some(EmptyIdError)
    else if |id| < 5 then Some(FormatError)
    else None
  }

  /** The three outcomes: a blank id is refused as empty; otherwise an id
      shorter than five characters, counting its padding, is refused as
      malformed; anything else is accepted. */
  lemma ValidateBookingIdSpec(id: string)
    ensures ValidateBookingId(id) == Some(EmptyIdError) <==> AllSpace(id)
    ensures ValidateBookingId(id) == Some(FormatError) <==> !AllSpace(id) && |id| < 5
    ensures ValidateBookingId(id) == None <==> !AllSpace(id) && |id| >= 5
  {
    TrimEmptyIff(id);
  }

  /** The length check counts the padding: two characters between spaces
      are accepted. */
  lemma PaddedShortIdAccepted()
    ensures ValidateBookingId("  ab ") == None && |Trim("  ab ")| == 2
  {
    assert !AllSpace("  ab ") by { assert !IsSpace("  ab "[2]); }
    ValidateBookingIdSpec("  ab ");
    assert TrimStart("  ab ") == "ab ";
    assert TrimEnd("ab ") == "ab";
  }

  class TrackingPage {
    var bookingId: string
    var isTracking: bool
    var error: string

    /** The page opened with an optional `booking` query parameter: tracking
        starts at once exactly when it is non-empty. */
    constructor (bookingParam: Option<string>)
      ensures bookingId == (if bookingParam.Some? then bookingParam.value else "")
      ensures isTracking <==> bookingParam.Some? && bookingParam.value != ""
      ensures error == ""
    {
      bookingId := if bookingParam.Some? then bookingParam.value else "";
      isTracking := bookingParam.Some? && bookingParam.value != "";
      error := "";
    }

    /** `handleTrackBooking`: show the check's error, or clear it and start
        tracking. */
    method TrackBooking()
      modifies this`error, this`isTracking
      ensures ValidateBookingId(bookingId).Some? ==>
        error == ValidateBookingId(bookingId).value && isTracking == old(isTracking)
      ensures ValidateBookingId(bookingId).None? ==> error == "" && isTracking
    {
      if Trim(bookingId) == "" {
        error := EmptyIdError;
        return;
      }
      if |bookingId| < 5 {
        error := FormatError;
        return;
      }
      error := "";
      isTracking := true;
    }

    /** `handleCloseTracking`. */
    method CloseTracking()
      modifies this`isTracking, this`bookingId
      ensures !isTracking && bookingId == ""
    {
      isTracking := false;
      bookingId := "";
    }

    /** Typing in the booking id box clears the error. */
    method EditBookingId(v: string)
      modifies this`bookingId, this`error
      ensures bookingId == v && error == ""
    {
      bookingId := v;
      error := "";
    }

    /** The demo button tracks the demo booking without any check. */
    method ViewDemo()
      modifies this`bookingId, this`isTracking
      ensures bookingId == DemoId && isTracking
    {
      bookingId := DemoId;
      isTracking := true;
    }
  }

  /** The demo id would also pass the check. */
  lemma DemoIdValid()
    ensures ValidateBookingId(DemoId) == None
  {
    assert !AllSpace(DemoId) by { assert !IsSpace(DemoId[0]); }
    ValidateBookingIdSpec(DemoId);
  }
}
