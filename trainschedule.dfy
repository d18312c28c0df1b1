/**
 * The train-schedule screen: a cached list of schedule entries, an exact-match filter on
 * train name and route name (an empty key means "any"), the option lists of distinct names,
 * and the create-or-update choice of the form modal.
 */
module TrainSchedules {
  import opened Wrappers
  import opened Seqs

  datatype ScheduleRoute = ScheduleRoute(routeName: string)
  datatype ScheduleTrain = ScheduleTrain(trainId: int, trainName: string, route: ScheduleRoute)
  datatype ScheduleStation = ScheduleStation(stationId: int, stationName: string)
  datatype TrainSchedule = TrainSchedule(
    trainScheduleId: int, train: ScheduleTrain, station: ScheduleStation,
    departureTime: string, arrivalTime: string, day: int, distance: int)

  /** The row test of `applyFilters`: a non-empty key must equal the field exactly. */
  predicate MatchesSelection(s: TrainSchedule, trainName: string, routeName: string) {
    (trainName == [] || s.train.trainName == trainName)
    && (routeName == [] || s.train.route.routeName == routeName)
  }

  /** `applyFilters(trainName, routeName)` over the full cached list. */
  function ApplyFilters(schedules: seq<TrainSchedule>, trainName: string, routeName: string): seq<TrainSchedule> {
    Filter(schedules, s => MatchesSelection(s, trainName, routeName))
  }

  /** The filtered list is an order-preserving selection of the cached list that keeps, with
      all their occurrences, exactly the entries whose train name and route name equal the
      non-empty keys (case-sensitively). */
  lemma FilteredSchedules(schedules: seq<TrainSchedule>, trainName: string, routeName: string)
    ensures IsSubsequence(ApplyFilters(schedules, trainName, routeName), schedules)
    ensures forall s ::
      multiset(ApplyFilters(schedules, trainName, routeName))[s]
      == (if MatchesSelection(s, trainName, routeName) then multiset(schedules)[s] else 0)
    ensures forall s :: s in ApplyFilters(schedules, trainName, routeName) ==>
      (trainName != [] ==> s.train.trainName == trainName)
      && (routeName != [] ==> s.train.route.routeName == routeName)
  {
    var p := s => MatchesSelection(s, trainName, routeName);
    FilterIsSubsequence(schedules, p);
    forall s ensures multiset(Filter(schedules, p))[s] == if p(s) then multiset(schedules)[s] else 0 {
      FilterMultiplicity(schedules, p, s);
    }
  }

  /** With both keys empty the whole list is shown. */
  lemma EmptySelectionKeepsAll(schedules: seq<TrainSchedule>)
    ensures ApplyFilters(schedules, [], []) == schedules
  {
    FilterAll(schedules, s => MatchesSelection(s, [], []));
  }

  /** `[...new Set(trainSchedules.map(s => s.train.trainName))]`. */
  function TrainNames(schedules: seq<TrainSchedule>): seq<string> {
    Distinct(Map(schedules, (s: TrainSchedule) => s.train.trainName))
  }

  /** `[...new Set(trainSchedules.map(s => s.train.route.routeName))]`. */
  function RouteNames(schedules: seq<TrainSchedule>): seq<string> {
    Distinct(Map(schedules, (s: TrainSchedule) => s.train.route.routeName))
  }

  /** Each list holds every name present in the schedules exactly once and nothing else. */
  lemma NameOptions(schedules: seq<TrainSchedule>)
    ensures forall n :: n in TrainNames(schedules) <==>
      exists i :: 0 <= i < |schedules| && schedules[i].train.trainName == n
    ensures forall n :: n in RouteNames(schedules) <==>
      exists i :: 0 <= i < |schedules| && schedules[i].train.route.routeName == n
    ensures NoDuplicates(TrainNames(schedules)) && NoDuplicates(RouteNames(schedules))
  {
    var tn := Map(schedules, (s: TrainSchedule) => s.train.trainName);
    var rn := Map(schedules, (s: TrainSchedule) => s.train.route.routeName);
    DistinctSpec(tn);
    DistinctSpec(rn);
    forall n ensures n in tn <==> exists i :: 0 <= i < |schedules| && schedules[i].train.trainName == n {
      if n in tn {
        var i :| 0 <= i < |tn| && tn[i] == n;
        assert schedules[i].train.trainName == n;
      }
    }
    forall n ensures n in rn <==> exists i :: 0 <= i < |schedules| && schedules[i].train.route.routeName == n {
      if n in rn {
        var i :| 0 <= i < |rn| && rn[i] == n;
        assert schedules[i].train.route.routeName == n;
      }
    }
  }

  /** Picking any offered train name (with no route key) shows at least one entry. */
  lemma OfferedTrainNameSelectsSomething(schedules: seq<TrainSchedule>, n: string)
    requires n in TrainNames(schedules)
    ensures ApplyFilters(schedules, n, []) != []
  {
    NameOptions(schedules);
    var i :| 0 <= i < |schedules| && schedules[i].train.trainName == n;
    FilterMultiplicity(schedules, s => MatchesSelection(s, n, []), schedules[i]);
    assert schedules[i] in multiset(schedules);
  }

  /** The request body built from the validated form (times already formatted as text). */
  datatype SchedulePayload = SchedulePayload(
    trainId: int, stationId: int, departureTime: string, arrivalTime: string, day: int, distance: int)

  datatype ScheduleCall = CreateSchedule(body: SchedulePayload) | UpdateSchedule(id: int, body: SchedulePayload)

  /** `handleSubmit`: update the schedule being edited, otherwise create; the body is sent as
      the form holds it, with no further check. */
  function Submit(editing: Option<TrainSchedule>, body: SchedulePayload): (call: ScheduleCall)
    ensures call.body == body
    ensures call.UpdateSchedule? <==> editing.Some?
    ensures call.UpdateSchedule? ==> call.id == editing.value.trainScheduleId
  {
    if editing.Some? then UpdateSchedule(editing.value.trainScheduleId, body) else CreateSchedule(body)
  }

  /** The screen's state. */
  class TrainScheduleManager {
    var trainSchedules: seq<TrainSchedule>
    var filteredTrainSchedules: seq<TrainSchedule>
    var loading: bool
    var error: Option<string>
    var isModalVisible: bool
    var editingSchedule: Option<TrainSchedule>
    var selectedTrainName: string
    var selectedRouteName: string

    /** The displayed rows are always drawn, in order, from the cached list. */
    ghost predicate Valid()
      reads this
    {
      IsSubsequence(filteredTrainSchedules, trainSchedules)
    }

    constructor ()
      ensures Valid()
      ensures trainSchedules == [] && filteredTrainSchedules == [] && !loading && error == None
      ensures !isModalVisible && editingSchedule == None
      ensures selectedTrainName == [] && selectedRouteName == []
    {
      trainSchedules, filteredTrainSchedules := [], [];
      loading, error := false, None;
      isModalVisible, editingSchedule := false, None;
      selectedTrainName, selectedRouteName := [], [];
    }

    method StartLoad()
      modifies this`loading
      ensures loading
    {
      loading := true;
    }

    /** `fetchTrainSchedules()` resolved: the cache and the displayed list become the response. */
    method LoadSucceeded(response: seq<TrainSchedule>)
      requires Valid()
      modifies this`trainSchedules, this`filteredTrainSchedules, this`loading
      ensures Valid()
      ensures trainSchedules == response && filteredTrainSchedules == response && !loading
    {
      trainSchedules, filteredTrainSchedules := response, response;
      loading := false;
      SubsequenceRefl(response);
    }

    /** `fetchTrainSchedules()` rejected: store the error text or the default. */
    method LoadFailed(errMessage: string)
      requires Valid()
      modifies this`error, this`loading
      ensures Valid()
      ensures error == Some(OrDefault(errMessage, "Có lỗi xảy ra")) && !loading
    {
      error := Some(OrDefault(errMessage, "Có lỗi xảy ra"));
      loading := false;
    }

    /** `handleTrainNameFilterChange`: store the key and re-filter with the current route key. */
    method HandleTrainNameFilterChange(value: string)
      requires Valid()
      modifies this`selectedTrainName, this`filteredTrainSchedules
      ensures Valid()
      ensures selectedTrainName == value
      ensures filteredTrainSchedules == ApplyFilters(trainSchedules, value, selectedRouteName)
    {
      selectedTrainName := value;
      filteredTrainSchedules := ApplyFilters(trainSchedules, value, selectedRouteName);
      FilteredSchedules(trainSchedules, value, selectedRouteName);
    }

    /** `handleRouteNameFilterChange`: store the key and re-filter with the current train key. */
    method HandleRouteNameFilterChange(value: string)
      requires Valid()
      modifies this`selectedRouteName, this`filteredTrainSchedules
      ensures Valid()
      ensures selectedRouteName == value
      ensures filteredTrainSchedules == ApplyFilters(trainSchedules, selectedTrainName, value)
    {
      selectedRouteName := value;
      filteredTrainSchedules := ApplyFilters(trainSchedules, selectedTrainName, value);
      FilteredSchedules(trainSchedules, selectedTrainName, value);
    }

    method OpenCreate()
      modifies this`editingSchedule, this`isModalVisible
      ensures editingSchedule == None && isModalVisible
    {
      editingSchedule, isModalVisible := None, true;
    }

    method OpenEdit(record: TrainSchedule)
      modifies this`editingSchedule, this`isModalVisible
      ensures editingSchedule == Some(record) && isModalVisible
    {
      editingSchedule, isModalVisible := Some(record), true;
    }

    /** `handleSubmit` with the validated form: the request to issue. */
    method HandleSubmit(body: SchedulePayload) returns (call: ScheduleCall)
      ensures call == Submit(editingSchedule, body)
    {
      call := Submit(editingSchedule, body);
    }

    /** The create/update request succeeded: report it, close the modal and reload. */
    method SubmitSucceeded() returns (toast: Toast)
      modifies this`isModalVisible, this`loading
      ensures toast == Success(if editingSchedule.Some? then "Cập nhật thành công!" else "Tạo lịch tàu thành công!")
      ensures !isModalVisible && loading
    {
      toast := Success(if editingSchedule.Some? then "Cập nhật thành công!" else "Tạo lịch tàu thành công!");
      isModalVisible := false;
      loading := true;
    }

    /** `handleDelete(record)`, with the outcome of `deleteTrainSchedule` as input: the
        record's id is sent; success is reported and starts a reload, while a failure reports
        the error text or the default. The lists change only when the reload settles. */
    method HandleDelete(record: TrainSchedule, succeeded: bool, errMessage: string) returns (deletedId: int, toast: Toast)
      modifies this`loading
      ensures deletedId == record.trainScheduleId
      ensures succeeded ==> toast == Success("Xóa lịch tàu thành công!") && loading
      ensures !succeeded ==> toast == Error(OrDefault(errMessage, "Xóa thất bại!")) && loading == old(loading)
    {
      deletedId := record.trainScheduleId;
      if succeeded {
        toast := Success("Xóa lịch tàu thành công!");
        loading := true;
      } else {
        toast := Error(OrDefault(errMessage, "Xóa thất bại!"));
      }
    }

    /** The create/update request failed: report the error text or the default; the modal
        stays open. */
    method SubmitFailed(errMessage: string) returns (toast: Toast)
      ensures toast == Error(OrDefault(errMessage, "Thao tác thất bại!"))
    {
      toast := Error(OrDefault(errMessage, "Thao tác thất bại!"));
    }

    /** The form's validation rejected the values: nothing is sent. */
    method ValidationFailed() returns (toast: Toast)
      ensures toast == Error("Vui lòng kiểm tra lại thông tin!")
    {
      toast := Error("Vui lòng kiểm tra lại thông tin!");
    }

    method CancelModal()
      modifies this`isModalVisible
      ensures !isModalVisible
    {
      isModalVisible := false;
    }

    /** The option lists of the two filter drop-downs. */
    method FilterOptions() returns (trainNames: seq<string>, routeNames: seq<string>)
      ensures trainNames == TrainNames(trainSchedules) && routeNames == RouteNames(trainSchedules)
    {
      trainNames, routeNames := TrainNames(trainSchedules), RouteNames(trainSchedules);
    }
  }
}
