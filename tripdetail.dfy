/**
 * The trip manager screen: the trip list with its in-place cancel update, the detail modal,
 * the collapsed schedule table and the booked-seat count of each carriage.
 */
module TripDetail {
  import opened Wrappers
  import opened Seqs

  datatype RouteInfo = RouteInfo(routeId: int, routeName: string)
  datatype StopStation = StopStation(stationId: int, stationName: string, location: string)
  datatype Schedule = Schedule(
    trainScheduleId: int, day: int, arrivalTime: string, departureTime: string,
    distance: int, station: StopStation)
  datatype TrainInfo = TrainInfo(trainId: int, trainName: string, route: RouteInfo, trainSchedules: seq<Schedule>)
  datatype Compartment = Compartment(compartmentId: int, compartmentName: string, seatCount: int, classFactor: real)
  datatype Seat = Seat(seatId: int, seatNumber: string, floor: int, seatFactor: real, seatStatus: string)
  /** `seats` may be missing from the server's answer. */
  datatype Carriage = Carriage(carriageListId: int, compartment: Compartment, seats: Option<seq<Seat>>, stt: int)
  /** `carriageLists` may be missing from the server's answer. */
  datatype Trip = Trip(
    tripId: int, tripDate: string, tripStatus: string, basePrice: int,
    train: TrainInfo, carriageLists: Option<seq<Carriage>>)

  const Cancelled := "Cancelled"

  /** The cancel button is enabled unless the trip is already cancelled. */
  predicate CanCancel(t: Trip) {
    t.tripStatus != Cancelled
  }

  /** The list update after a successful cancel: `prev.map(trip => trip.tripId === tripId ?
      { ...trip, tripStatus: 'Cancelled' } : trip)`. */
  function MarkCancelled(trips: seq<Trip>, tripId: int): seq<Trip> {
    Map(trips, (t: Trip) => if t.tripId == tripId then t.(tripStatus := Cancelled) else t)
  }

  /** Cancelling keeps length and order, sets the status of exactly the trips with the given id
      to 'Cancelled', and leaves every other field of every trip as it was. */
  lemma CancelChangesOnlyStatus(trips: seq<Trip>, tripId: int)
    ensures |MarkCancelled(trips, tripId)| == |trips|
    ensures forall i :: 0 <= i < |trips| ==>
      var t := MarkCancelled(trips, tripId)[i];
      t.(tripStatus := trips[i].tripStatus) == trips[i]
      && t.tripStatus == (if trips[i].tripId == tripId then Cancelled else trips[i].tripStatus)
    ensures forall i :: 0 <= i < |trips| && trips[i].tripId == tripId ==>
      !CanCancel(MarkCancelled(trips, tripId)[i])
    ensures forall i :: 0 <= i < |trips| && trips[i].tripId != tripId ==>
      CanCancel(MarkCancelled(trips, tripId)[i]) == CanCancel(trips[i])
  {
  }

  /** Applying the cancel update twice is applying it once. */
  lemma CancelIdempotent(trips: seq<Trip>, tripId: int)
    ensures MarkCancelled(MarkCancelled(trips, tripId), tripId) == MarkCancelled(trips, tripId)
  {
    var once := MarkCancelled(trips, tripId);
    var twice := MarkCancelled(once, tripId);
    assert |twice| == |once|;
    forall i | 0 <= i < |once| ensures twice[i] == once[i] {
    }
  }

  /** The server's answer to `cancelTripById`. */
  datatype CancelReply = CancelOk(message: string) | CancelFailed(message: string)

  /** One row of the schedule table; `EllipsisRow` is the '...' row of the collapsed view. */
  datatype ScheduleRow =
    | StopRow(key: int, stt: int, ga: string, arrivalTime: string, departureTime: string)
    | EllipsisRow

  const HeadCount := 2
  const TailCount := 2

  function StopRowOf(s: Schedule, number: int): ScheduleRow {
    StopRow(s.trainScheduleId, number, s.station.stationName, s.arrivalTime, s.departureTime)
  }

  /** `schedules.map((schedule, index) => ({ ..., stt: first + index }))`. */
  function NumberedRows(schedules: seq<Schedule>, first: int): (rows: seq<ScheduleRow>)
    ensures |rows| == |schedules|
    ensures forall i :: 0 <= i < |schedules| ==> rows[i] == StopRowOf(schedules[i], first + i)
  {
    seq(|schedules|, i requires 0 <= i < |schedules| => StopRowOf(schedules[i], first + i))
  }

  /** `RenderSchedule`'s `displayData`. */
  function DisplayRows(schedules: seq<Schedule>, expanded: bool): seq<ScheduleRow> {
    var n := |schedules|;
    if expanded || n <= HeadCount + TailCount + 1 then NumberedRows(schedules, 1)
    else
      NumberedRows(schedules[..HeadCount], 1) + [EllipsisRow]
      + NumberedRows(schedules[n - TailCount..], n - TailCount + 1)
  }

  /** Expanded, or with at most five stops, every stop is shown in order numbered 1..n. */
  lemma FullScheduleRows(schedules: seq<Schedule>, expanded: bool)
    requires expanded || |schedules| <= 5
    ensures |DisplayRows(schedules, expanded)| == |schedules|
    ensures forall i :: 0 <= i < |schedules| ==>
      DisplayRows(schedules, expanded)[i] == StopRowOf(schedules[i], i + 1)
  {
  }

  /** Collapsed with more than five stops, exactly five rows are shown: stops 1 and 2, the
      ellipsis, then stops n-1 and n. */
  lemma CollapsedScheduleRows(schedules: seq<Schedule>)
    requires |schedules| > 5
    ensures var rows := DisplayRows(schedules, false); var n := |schedules|;
      |rows| == 5
      && rows[0] == StopRowOf(schedules[0], 1)
      && rows[1] == StopRowOf(schedules[1], 2)
      && rows[2] == EllipsisRow
      && rows[3] == StopRowOf(schedules[n - 2], n - 1)
      && rows[4] == StopRowOf(schedules[n - 1], n)
  {
    var n := |schedules|;
    var rows := DisplayRows(schedules, false);
    var head := NumberedRows(schedules[..HeadCount], 1);
    var tail := NumberedRows(schedules[n - TailCount..], n - TailCount + 1);
    assert rows == head + [EllipsisRow] + tail;
    assert rows[3] == tail[0] && rows[4] == tail[1];
  }

  /** Every stop row's number is its stop's 1-based position in the full list, and the
      ellipsis row appears exactly in the collapsed view of more than five stops. */
  lemma RowNumbersArePositions(schedules: seq<Schedule>, expanded: bool)
    ensures var rows := DisplayRows(schedules, expanded);
      forall k :: 0 <= k < |rows| && rows[k].StopRow? ==>
        1 <= rows[k].stt <= |schedules| && rows[k] == StopRowOf(schedules[rows[k].stt - 1], rows[k].stt)
    ensures EllipsisRow in DisplayRows(schedules, expanded) <==> !expanded && |schedules| > 5
  {
    if !expanded && |schedules| > 5 {
      CollapsedScheduleRows(schedules);
    } else {
      FullScheduleRows(schedules, expanded);
    }
  }

  predicate IsBooked(s: Seat) {
    s.seatStatus == "Booked"
  }

  /** `carriage.seats?.filter(s => s.seatStatus === 'Booked').length || 0`. */
  function BookedCount(seats: Option<seq<Seat>>): int {
    if seats.None? then 0 else |Filter(seats.value, IsBooked)|
  }

  /** The booked count is the number of seats whose status is 'Booked'; without seats it is 0,
      and it never exceeds the number of seats. */
  lemma BookedCountSpec(seats: Option<seq<Seat>>)
    ensures seats.None? ==> BookedCount(seats) == 0
    ensures seats.Some? ==> BookedCount(seats) == |set i | 0 <= i < |seats.value| && IsBooked(seats.value[i])|
    ensures seats.Some? ==> 0 <= BookedCount(seats) <= |seats.value|
  {
    if seats.Some? {
      FilterLengthCountsIndices(seats.value, IsBooked);
      assert IndicesWhere(seats.value, IsBooked) == set i | 0 <= i < |seats.value| && IsBooked(seats.value[i]);
    }
  }

  /** A row of the carriage table in the detail modal. */
  datatype CarriageRow = CarriageRow(key: int, stt: int, compartmentName: string, seatCount: int, bookedCount: int)

  /** `selectedTrip.carriageLists?.map(...) || []`. */
  function CarriageRows(t: Trip): seq<CarriageRow> {
    var cs := t.carriageLists.GetOr([]);
    seq(|cs|, i requires 0 <= i < |cs| =>
      CarriageRow(i, i + 1, cs[i].compartment.compartmentName, cs[i].compartment.seatCount, BookedCount(cs[i].seats)))
  }

  /** One row per carriage, numbered from 1, each with its carriage's booked count, which is
      bounded by that carriage's number of seats. */
  lemma CarriageRowsSpec(t: Trip)
    ensures |CarriageRows(t)| == if t.carriageLists.Some? then |t.carriageLists.value| else 0
    ensures forall i :: 0 <= i < |CarriageRows(t)| ==>
      var c := t.carriageLists.value[i];
      CarriageRows(t)[i].stt == i + 1
      && CarriageRows(t)[i].bookedCount == BookedCount(c.seats)
      && 0 <= CarriageRows(t)[i].bookedCount <= (if c.seats.Some? then |c.seats.value| else 0)
  {
    var rows := CarriageRows(t);
    forall i | 0 <= i < |rows|
      ensures var c := t.carriageLists.value[i];
        0 <= rows[i].bookedCount <= (if c.seats.Some? then |c.seats.value| else 0)
    {
      BookedCountSpec(t.carriageLists.value[i].seats);
    }
  }

  /** The screen's state. */
  class TripManager {
    var trips: seq<Trip>
    var loading: bool
    var modalVisible: bool
    var selectedTrip: Option<Trip>
    var detailLoading: bool
    var expandedSchedule: bool
    var carriageSeatsVisible: bool
    var selectedCarriageSeats: seq<Seat>
    var selectedCarriageName: string

    constructor ()
      ensures trips == [] && !loading && !modalVisible && selectedTrip == None
      ensures !detailLoading && !expandedSchedule
      ensures !carriageSeatsVisible && selectedCarriageSeats == [] && selectedCarriageName == []
    {
      trips, loading := [], false;
      modalVisible, selectedTrip, detailLoading, expandedSchedule := false, None, false, false;
      carriageSeatsVisible, selectedCarriageSeats, selectedCarriageName := false, [], [];
    }

    /** `loadTrips` starts: the spinner shows. */
    method StartLoad()
      modifies this`loading
      ensures loading
    {
      loading := true;
    }

    /** `loadTrips` settled: the list becomes the response on success and stays otherwise,
        with the error text (or a default) reported; the spinner stops either way. */
    method TripsLoaded(response: Option<seq<Trip>>, errMessage: string) returns (toast: Option<Toast>)
      modifies this`trips, this`loading
      ensures trips == (if response.Some? then response.value else old(trips))
      ensures toast == (if response.Some? then None else Some(Error(OrDefault(errMessage, "Lỗi khi tải danh sách chuyến đi"))))
      ensures !loading
    {
      toast := None;
      if response.Some? {
        trips := response.value;
      } else {
        toast := Some(Error(OrDefault(errMessage, "Lỗi khi tải danh sách chuyến đi")));
      }
      loading := false;
    }

    /** `openDetailModal` starts: the detail spinner shows. */
    method StartDetail()
      modifies this`detailLoading
      ensures detailLoading
    {
      detailLoading := true;
    }

    /** `openDetailModal` settled: on success the fetched trip is shown in the modal; on
        failure the error text (or a default) is reported and the modal stays as it was. */
    method DetailLoaded(response: Option<Trip>, errMessage: string) returns (toast: Option<Toast>)
      modifies this`selectedTrip, this`modalVisible, this`detailLoading
      ensures response.Some? ==> selectedTrip == response && modalVisible && toast == None
      ensures response.None? ==>
        (selectedTrip == old(selectedTrip) && modalVisible == old(modalVisible)
         && toast == Some(Error(OrDefault(errMessage, "Lỗi khi tải chi tiết chuyến đi"))))
      ensures !detailLoading
    {
      toast := None;
      if response.Some? {
        selectedTrip, modalVisible := response, true;
      } else {
        toast := Some(Error(OrDefault(errMessage, "Lỗi khi tải chi tiết chuyến đi")));
      }
      detailLoading := false;
    }

    /** The confirmed cancel of `tripId` settled: on success only that trip's status changes;
        on failure the list is untouched. Returns the notification shown. */
    method HandleCancelTrip(tripId: int, reply: CancelReply) returns (toast: Toast)
      modifies this`trips
      ensures trips == (if reply.CancelOk? then MarkCancelled(old(trips), tripId) else old(trips))
      ensures reply.CancelOk? ==> toast == Success(OrDefault(reply.message, "Đã hủy chuyến thành công"))
      ensures reply.CancelFailed? ==> toast == Error(OrDefault(reply.message, "Hủy chuyến thất bại"))
    {
      if reply.CancelOk? {
        toast := Success(OrDefault(reply.message, "Đã hủy chuyến thành công"));
        trips := MarkCancelled(trips, tripId);
      } else {
        toast := Error(OrDefault(reply.message, "Hủy chuyến thất bại"));
      }
    }

    /** The schedule table's toggle link. */
    method ToggleSchedule()
      modifies this`expandedSchedule
      ensures expandedSchedule == !old(expandedSchedule)
    {
      expandedSchedule := !expandedSchedule;
    }

    /** Closing the detail modal with its close icon: hide it, forget the trip and collapse
        the schedule again. */
    method CloseDetailModal()
      modifies this`modalVisible, this`selectedTrip, this`expandedSchedule
      ensures !modalVisible && selectedTrip == None && !expandedSchedule
    {
      modalVisible, selectedTrip, expandedSchedule := false, None, false;
    }

    /** The footer's close button only hides the modal; the trip and the schedule toggle stay. */
    method CloseDetailFooter()
      modifies this`modalVisible
      ensures !modalVisible
    {
      modalVisible := false;
    }

    /** `openCarriageSeatsModal(carriage)`. */
    method OpenCarriageSeats(c: Carriage)
      modifies this`selectedCarriageSeats, this`selectedCarriageName, this`carriageSeatsVisible
      ensures selectedCarriageSeats == c.seats.GetOr([])
      ensures selectedCarriageName == c.compartment.compartmentName
      ensures carriageSeatsVisible
    {
      selectedCarriageSeats := c.seats.GetOr([]);
      selectedCarriageName := c.compartment.compartmentName;
      carriageSeatsVisible := true;
    }

    /** Either button of the carriage-seat modal hides it. */
    method CloseCarriageSeats()
      modifies this`carriageSeatsVisible
      ensures !carriageSeatsVisible
    {
      carriageSeatsVisible := false;
    }

    /** The rows the schedule table shows for the selected trip. */
    method ScheduleRows() returns (rows: seq<ScheduleRow>)
      requires selectedTrip.Some?
      ensures rows == DisplayRows(selectedTrip.value.train.trainSchedules, expandedSchedule)
    {
      rows := DisplayRows(selectedTrip.value.train.trainSchedules, expandedSchedule);
    }
  }
}
