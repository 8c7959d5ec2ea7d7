/** The event creation screen (app/events/create.tsx): its form state, the
    default start and end of the event, the routing of typed dates and times
    to the start or end fields, and the image picker's guard. */
module EventCreate {
  import opened Wrappers
  import opened DateText

  /** `2 * 60 * 60 * 1000`: the default length of an event. */
  const TwoHoursMs: int := 2 * 60 * 60 * 1000

  /** The default end: two hours after the clock reading `nowMs`. */
  function DefaultEndMs(nowMs: int): (r: int)
    ensures r - nowMs == 7200000
  {
    nowMs + TwoHoursMs
  }

  /** What the image library returns: cancelled, or the first asset's URI. */
  datatype PickerResult = Canceled | Picked(uri: string)

  /** The only navigation the screen performs. */
  datatype Nav = Back

  /** The two labels the text inputs show for a date: the date label (read
      back by `DateText.FormatDateRoundTrip`) and the time label, which is
      `HH:MM` and reads back as the hours and the minutes. */
  method Labels(d: DateTime) returns (dateText: string, timeText: string)
    requires ValidDate(d)
    ensures dateText == FormatDate(d) && timeText == FormatTime(d)
    ensures |timeText| == 5 && timeText[2] == ':'
    ensures ParseTime(timeText) == Some((d.hours as nat, d.minutes as nat))
  {
    dateText, timeText := FormatDate(d), FormatTime(d);
    FormatTimeRoundTrip(d);
  }

  class EventForm {
    var title: string
    var description: string
    var location: string
    var address: string
    var date: DateTime
    var endDate: DateTime
    var maxParticipants: string
    var fee: string
    var isPublic: bool
    var image: Option<string>
    var dateInput: string
    var timeInput: string
    var endDateInput: string
    var endTimeInput: string
    var routes: seq<Nav>

    /** The screen reads the clock twice: `now` for the start, and
        `laterMs` for the end, which is the calendar reading `later` of
        `laterMs` plus two hours. The four text inputs start as the labels of
        those two dates. */
    constructor (now: DateTime, laterMs: int, later: DateTime)
      requires ValidDate(now) && ValidDate(later)
      requires later.epochMs == DefaultEndMs(laterMs)
      ensures date == now && endDate == later && endDate.epochMs == laterMs + 7200000
      ensures title == "" && description == "" && location == "" && address == ""
      ensures maxParticipants == "10" && fee == "" && isPublic && image == None
      ensures dateInput == FormatDate(now) && timeInput == FormatTime(now)
      ensures endDateInput == FormatDate(later) && endTimeInput == FormatTime(later)
      ensures routes == []
    {
      title, description, location, address := "", "", "", "";
      date, endDate := now, later;
      maxParticipants, fee, isPublic, image := "10", "", true, None;
      var startDate, startTime := Labels(now);
      var endDateText, endTimeText := Labels(later);
      dateInput, timeInput := startDate, startTime;
      endDateInput, endTimeInput := endDateText, endTimeText;
      routes := [];
    }

    /** `handleDateChange(value, isEndDate)`: the end date's text when
        `isEndDate`, otherwise the start date's text; nothing else. */
    method HandleDateChange(value: string, isEndDate: bool)
      modifies this
      ensures isEndDate ==> endDateInput == value && dateInput == old(dateInput)
      ensures !isEndDate ==> dateInput == value && endDateInput == old(endDateInput)
      ensures timeInput == old(timeInput) && endTimeInput == old(endTimeInput)
      ensures date == old(date) && endDate == old(endDate) && image == old(image) && routes == old(routes)
      ensures title == old(title) && description == old(description) && location == old(location)
      ensures address == old(address) && maxParticipants == old(maxParticipants) && fee == old(fee)
      ensures isPublic == old(isPublic)
    {
      if isEndDate {
        endDateInput := value;
      } else {
        dateInput := value;
      }
    }

    /** `handleTimeChange(value, isEndDate)`: the same routing for the time
        texts. */
    method HandleTimeChange(value: string, isEndDate: bool)
      modifies this
      ensures isEndDate ==> endTimeInput == value && timeInput == old(timeInput)
      ensures !isEndDate ==> timeInput == value && endTimeInput == old(endTimeInput)
      ensures dateInput == old(dateInput) && endDateInput == old(endDateInput)
      ensures date == old(date) && endDate == old(endDate) && image == old(image) && routes == old(routes)
      ensures title == old(title) && description == old(description) && location == old(location)
      ensures address == old(address) && maxParticipants == old(maxParticipants) && fee == old(fee)
      ensures isPublic == old(isPublic)
    {
      if isEndDate {
        endTimeInput := value;
      } else {
        timeInput := value;
      }
    }

    /** `pickImage`, given what the library returned: the image becomes the
        picked URI, and stays as it was when the picker was cancelled. */
    method PickImage(result: PickerResult)
      modifies this
      ensures result.Picked? ==> image == Some(result.uri)
      ensures result.Canceled? ==> image == old(image)
      ensures dateInput == old(dateInput) && endDateInput == old(endDateInput)
      ensures timeInput == old(timeInput) && endTimeInput == old(endTimeInput)
      ensures date == old(date) && endDate == old(endDate) && routes == old(routes)
      ensures title == old(title) && description == old(description) && location == old(location)
      ensures address == old(address) && maxParticipants == old(maxParticipants) && fee == old(fee)
      ensures isPublic == old(isPublic)
    {
      if !result.Canceled? {
        image := Some(result.uri);
      }
    }

    /** `handleSave`: saves nothing and goes back. */
    method HandleSave()
      modifies this
      ensures routes == old(routes) + [Back]
      ensures image == old(image) && dateInput == old(dateInput) && endDateInput == old(endDateInput)
      ensures timeInput == old(timeInput) && endTimeInput == old(endTimeInput)
      ensures date == old(date) && endDate == old(endDate)
      ensures title == old(title) && description == old(description) && location == old(location)
      ensures address == old(address) && maxParticipants == old(maxParticipants) && fee == old(fee)
      ensures isPublic == old(isPublic)
    {
      routes := routes + [Back];
    }
  }
}
