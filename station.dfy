/**
 * The station list screen: a cached list of stations, a two-field filter recomputed from the
 * cache, a duplicate check on submit and the create-or-update decision, and the table's
 * pagination state.
 */
module Stations {
  import opened Wrappers
  import opened Text
  import opened Seqs

  /** A station record; `stationId` is absent on a station that was never saved. */
  datatype Station = Station(stationId: Option<int>, stationName: string, location: string)

  /** The row test of `applyFilters`: the name contains the name filter and, when a location
      filter is given, the location contains it, both ignoring case. */
  predicate MatchesFilters(s: Station, nameFilter: string, locationFilter: string) {
    ContainsIgnoringCase(s.stationName, nameFilter)
    && (locationFilter == [] || ContainsIgnoringCase(s.location, locationFilter))
  }

  /** `applyFilters(stationName, location)`, always run on the full cached list. */
  function ApplyFilters(stations: seq<Station>, nameFilter: string, locationFilter: string): seq<Station> {
    Filter(stations, s => MatchesFilters(s, nameFilter, locationFilter))
  }

  /** The filtered list is an order-preserving selection of the cached list holding, with all
      their occurrences, exactly the stations that match both filters. */
  lemma FilteredStations(stations: seq<Station>, nameFilter: string, locationFilter: string)
    ensures IsSubsequence(ApplyFilters(stations, nameFilter, locationFilter), stations)
    ensures forall s ::
      multiset(ApplyFilters(stations, nameFilter, locationFilter))[s]
      == (if MatchesFilters(s, nameFilter, locationFilter) then multiset(stations)[s] else 0)
    ensures forall s :: s in ApplyFilters(stations, nameFilter, locationFilter) ==>
      Contains(Lower(s.stationName), Lower(nameFilter))
      && (locationFilter != [] ==> Contains(Lower(s.location), Lower(locationFilter)))
  {
    var p := s => MatchesFilters(s, nameFilter, locationFilter);
    FilterIsSubsequence(stations, p);
    forall s ensures multiset(Filter(stations, p))[s] == if p(s) then multiset(stations)[s] else 0 {
      FilterMultiplicity(stations, p, s);
    }
  }

  /** With both filters empty every station is kept. */
  lemma EmptyFiltersKeepAll(stations: seq<Station>)
    ensures ApplyFilters(stations, [], []) == stations
  {
    var p := s => MatchesFilters(s, [], []);
    forall i | 0 <= i < |stations| ensures p(stations[i]) {
      ContainsEmpty(Lower(stations[i].stationName));
      assert Lower([]) == [];
    }
    FilterAll(stations, p);
  }

  /** Applying the same filters to their own result changes nothing. */
  lemma FiltersIdempotent(stations: seq<Station>, nameFilter: string, locationFilter: string)
    ensures ApplyFilters(ApplyFilters(stations, nameFilter, locationFilter), nameFilter, locationFilter)
      == ApplyFilters(stations, nameFilter, locationFilter)
  {
    FilterIdempotent(stations, s => MatchesFilters(s, nameFilter, locationFilter));
  }

  /** `editingStation?.stationId`: absent when creating. */
  function EditingId(editing: Option<Station>): Option<int> {
    if editing.Some? then editing.value.stationId else None
  }

  /** The test inside `stations.some(...)`: same trimmed, lower-cased name and location, and a
      different id from the station being edited. */
  predicate Clashes(s: Station, name: string, location: string, editing: Option<Station>) {
    Normalize(s.stationName) == Normalize(name)
    && Normalize(s.location) == Normalize(location)
    && s.stationId != EditingId(editing)
  }

  /** `isDuplicate`: `stations.some(...)` with the clash test. */
  function IsDuplicate(stations: seq<Station>, name: string, location: string, editing: Option<Station>): bool {
    Any(stations, s => Clashes(s, name, location, editing))
  }

  /** A submit is a duplicate exactly when some cached station clashes with it. */
  lemma DuplicateIff(stations: seq<Station>, name: string, location: string, editing: Option<Station>)
    ensures IsDuplicate(stations, name, location, editing)
      <==> exists i :: 0 <= i < |stations| && Clashes(stations[i], name, location, editing)
  {
    AnyIff(stations, s => Clashes(s, name, location, editing));
  }

  /** The duplicate test ignores case and surrounding white space of what was typed. */
  lemma DuplicateIgnoresCaseAndSpaces(stations: seq<Station>, name: string, location: string, editing: Option<Station>)
    ensures IsDuplicate(stations, Normalize(name), Normalize(location), editing)
      == IsDuplicate(stations, name, location, editing)
  {
    NormalizeIdempotent(name);
    NormalizeIdempotent(location);
    DuplicateIff(stations, Normalize(name), Normalize(location), editing);
    DuplicateIff(stations, name, location, editing);
  }

  /** Re-submitting the edited station's own values is not a duplicate when no other station
      has them, although creating a station with the same values would be. */
  lemma EditedStationIsNotItsOwnDuplicate(stations: seq<Station>, e: Station)
    requires e in stations && e.stationId.Some?
    requires forall i :: 0 <= i < |stations| && stations[i].stationId != e.stationId ==>
      Normalize(stations[i].stationName) != Normalize(e.stationName)
      || Normalize(stations[i].location) != Normalize(e.location)
    ensures !IsDuplicate(stations, e.stationName, e.location, Some(e))
    ensures IsDuplicate(stations, e.stationName, e.location, None)
  {
    DuplicateIff(stations, e.stationName, e.location, Some(e));
    DuplicateIff(stations, e.stationName, e.location, None);
    var i :| 0 <= i < |stations| && stations[i] == e;
    assert Clashes(stations[i], e.stationName, e.location, None);
  }

  /** The request `handleSubmit` issues. */
  datatype StationCall = CreateStation(body: Station) | UpdateStation(id: Option<int>, body: Station)

  /** What a submit leads to: the duplicate dialog (with its title) or one request. */
  datatype SubmitOutcome = DuplicateDialog(title: string) | Request(call: StationCall)

  /** `editingStation?.stationId || undefined`: an id of 0 is falsy and is dropped. */
  function PayloadId(editing: Option<Station>): Option<int> {
    var id := EditingId(editing);
    if id.Some? && id.value != 0 then id else None
  }

  /** `handleSubmit` after the form's own validation passed. */
  function Submit(stations: seq<Station>, editing: Option<Station>, name: string, location: string): SubmitOutcome {
    if IsDuplicate(stations, name, location, editing) then
      DuplicateDialog(if editing.Some? then "Không thể cập nhật ga" else "Không thể thêm ga")
    else
      var body := Station(PayloadId(editing), name, location);
      if editing.Some? then Request(UpdateStation(editing.value.stationId, body))
      else Request(CreateStation(body))
  }

  /** A duplicate is blocked with no request; otherwise editing updates the edited station's
      id and carries that id in the body unless it is the falsy 0, and creating sends a body
      without an id, both carrying the typed name and location. */
  lemma SubmitDecision(stations: seq<Station>, editing: Option<Station>, name: string, location: string)
    ensures var out := Submit(stations, editing, name, location);
      (out.DuplicateDialog? <==>
        exists i :: 0 <= i < |stations| && Clashes(stations[i], name, location, editing))
      && (out.Request? ==>
        out.call.body.stationName == name && out.call.body.location == location
        && (editing.None? ==> out.call == CreateStation(Station(None, name, location)))
        && (editing.Some? ==>
              out.call.UpdateStation? && out.call.id == editing.value.stationId
              && out.call.body.stationId ==
                   (if editing.value.stationId.Some? && editing.value.stationId.value != 0
                    then editing.value.stationId else None)))
  {
    DuplicateIff(stations, name, location, editing);
  }

  /** `pagination.x || default`: a missing or zero value falls back to the default. */
  function PageValue(v: Option<int>, default: int): (r: int)
    ensures v.Some? && v.value != 0 ==> r == v.value
    ensures v.None? || v.value == 0 ==> r == default
  {
    if v.Some? && v.value != 0 then v.value else default
  }

  /** With a non-zero default the stored setting is never the falsy 0, it is either the
      table's value or the default, and handing the stored setting back to the table keeps
      it, so a second change with the same values is settled. */
  lemma PageValueSettles(v: Option<int>, default: int)
    requires default != 0
    ensures PageValue(v, default) != 0
    ensures PageValue(v, default) == default || v == Some(PageValue(v, default))
    ensures PageValue(Some(PageValue(v, default)), default) == PageValue(v, default)
  {
  }

  /** The screen's state (its React `useState` fields). */
  class StationManager {
    var stations: seq<Station>
    var filteredStations: seq<Station>
    var loading: bool
    var error: Option<string>
    var isModalVisible: bool
    var editingStation: Option<Station>
    var stationNameFilter: string
    var locationFilter: string
    var current: int
    var pageSize: int

    /** The displayed rows are always drawn, in order, from the cached list, and the stored
        page settings are never the falsy 0. */
    ghost predicate Valid()
      reads this
    {
      IsSubsequence(filteredStations, stations) && current != 0 && pageSize != 0
    }

    constructor ()
      ensures Valid()
      ensures stations == [] && filteredStations == [] && !loading && error == None
      ensures !isModalVisible && editingStation == None
      ensures stationNameFilter == [] && locationFilter == []
      ensures current == 1 && pageSize == 10
    {
      stations, filteredStations := [], [];
      loading, error := false, None;
      isModalVisible, editingStation := false, None;
      stationNameFilter, locationFilter := [], [];
      current, pageSize := 1, 10;
    }

    /** `loadData` starts: the spinner shows. */
    method StartLoad()
      modifies this`loading
      ensures loading
    {
      loading := true;
    }

    /** `fetchStations()` resolved: the cache and the displayed list both become the
        response, whatever filters are typed; a previous error stays set. */
    method LoadSucceeded(response: seq<Station>)
      requires Valid()
      modifies this`stations, this`filteredStations, this`loading
      ensures Valid()
      ensures stations == response && filteredStations == response && !loading
    {
      stations, filteredStations := response, response;
      loading := false;
      SubsequenceRefl(response);
    }

    /** `fetchStations()` rejected: the error text (or a default) is stored, the lists stay. */
    method LoadFailed(errMessage: string)
      requires Valid()
      modifies this`error, this`loading
      ensures Valid()
      ensures error == Some(OrDefault(errMessage, "Có lỗi xảy ra")) && !loading
    {
      error := Some(OrDefault(errMessage, "Có lỗi xảy ra"));
      loading := false;
    }

    /** Typing in the name filter: store it and re-filter the cache with the current
        location filter. */
    method ChangeNameFilter(value: string)
      requires Valid()
      modifies this`stationNameFilter, this`filteredStations
      ensures Valid()
      ensures stationNameFilter == value
      ensures filteredStations == ApplyFilters(stations, value, locationFilter)
    {
      stationNameFilter := value;
      filteredStations := ApplyFilters(stations, value, locationFilter);
      FilteredStations(stations, value, locationFilter);
    }

    /** Typing in the location filter: store it and re-filter the cache with the current
        name filter. */
    method ChangeLocationFilter(value: string)
      requires Valid()
      modifies this`locationFilter, this`filteredStations
      ensures Valid()
      ensures locationFilter == value
      ensures filteredStations == ApplyFilters(stations, stationNameFilter, value)
    {
      locationFilter := value;
      filteredStations := ApplyFilters(stations, stationNameFilter, value);
      FilteredStations(stations, stationNameFilter, value);
    }

    /** `handleCreate`: open the modal with no station being edited. */
    method OpenCreate()
      modifies this`editingStation, this`isModalVisible
      ensures editingStation == None && isModalVisible
    {
      editingStation, isModalVisible := None, true;
    }

    /** `handleEdit(record)`: open the modal on `record`. */
    method OpenEdit(record: Station)
      modifies this`editingStation, this`isModalVisible
      ensures editingStation == Some(record) && isModalVisible
    {
      editingStation, isModalVisible := Some(record), true;
    }

    /** `handleSubmit` with the validated form values: decides the outcome against the
        cached list and the edited station; nothing changes until the request settles. */
    method HandleSubmit(name: string, location: string) returns (out: SubmitOutcome)
      ensures out == Submit(stations, editingStation, name, location)
    {
      out := Submit(stations, editingStation, name, location);
    }

    /** The create/update request succeeded: report it, close the modal and reload. */
    method SubmitSucceeded() returns (toast: Toast)
      modifies this`isModalVisible, this`loading
      ensures toast == Success(if editingStation.Some? then "Cập nhật thành công!" else "Tạo ga thành công!")
      ensures !isModalVisible && loading
    {
      toast := Success(if editingStation.Some? then "Cập nhật thành công!" else "Tạo ga thành công!");
      isModalVisible := false;
      loading := true;
    }

    /** The create/update request failed: report the error text or the default; the modal
        stays open. */
    method SubmitFailed(errMessage: string) returns (toast: Toast)
      ensures toast == Error(OrDefault(errMessage, "Thao tác thất bại!"))
    {
      toast := Error(OrDefault(errMessage, "Thao tác thất bại!"));
    }

    /** The form's validation rejected the values: nothing is sent. */
    method ValidationFailed() returns (toast: Toast)
      ensures toast == Error("Vui lòng kiểm tra lại thông tin!")
    {
      toast := Error("Vui lòng kiểm tra lại thông tin!");
    }

    /** The modal's cancel button. */
    method CancelModal()
      modifies this`isModalVisible
      ensures !isModalVisible
    {
      isModalVisible := false;
    }

    /** `handleTableChange`: store the page settings with their defaults; the effect that
        depends on the page number reloads the list when that number changed. */
    method HandleTableChange(newCurrent: Option<int>, newPageSize: Option<int>) returns (reload: bool)
      requires Valid()
      modifies this`current, this`pageSize, this`loading
      ensures Valid()
      ensures current == PageValue(newCurrent, 1) && pageSize == PageValue(newPageSize, 10)
      ensures reload == (current != old(current))
      ensures loading == (old(loading) || reload)
    {
      var c := PageValue(newCurrent, 1);
      reload := c != current;
      current, pageSize := c, PageValue(newPageSize, 10);
      if reload {
        loading := true;
      }
    }
  }
}
