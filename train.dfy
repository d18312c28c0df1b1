/**
 * The train screen: the route field's validator and option filter, the add-or-update
 * choice of the modal, the mapping of each request's outcome to a notification, and the
 * modal's state.
 */
module Trains {
  import opened Wrappers
  import opened Text
  import opened Seqs

  datatype Train = Train(trainId: string, trainName: string, route: string)
  datatype RouteResponse = RouteResponse(routeId: string, routeName: string)

  /** `validateRoute`: an empty value, or a value equal to some route's name exactly. */
  predicate ValidateRoute(routes: seq<RouteResponse>, value: string) {
    value == [] || exists i :: 0 <= i < |routes| && routes[i].routeName == value
  }

  /** An option of the route AutoComplete. */
  datatype RouteOption = RouteOption(value: string, labelText: string)

  function RouteOptionOf(r: RouteResponse): RouteOption {
    RouteOption(r.routeName, r.routeName + " (" + r.routeId + ")")
  }

  function RouteOptions(routes: seq<RouteResponse>): seq<RouteOption> {
    Map(routes, RouteOptionOf)
  }

  /** The options are the routes in order, and picking any of them passes the validator. */
  lemma OfferedRoutesAreValid(routes: seq<RouteResponse>)
    ensures |RouteOptions(routes)| == |routes|
    ensures forall i :: 0 <= i < |routes| ==>
      RouteOptions(routes)[i].value == routes[i].routeName
      && ValidateRoute(routes, RouteOptions(routes)[i].value)
  {
  }

  /** `filterOption`: the option's value (or '' when missing) contains the typed text,
      ignoring case. */
  predicate FilterOption(inputValue: string, optionValue: Option<string>) {
    Contains(Lower(optionValue.GetOr([])), Lower(inputValue))
  }

  /** Empty input shows every option; a missing value only shows while the input is empty;
      an option whose value contains the input is shown. */
  lemma FilterOptionSpec(inputValue: string, optionValue: Option<string>)
    ensures inputValue == [] ==> FilterOption(inputValue, optionValue)
    ensures optionValue.None? ==> (FilterOption(inputValue, optionValue) <==> inputValue == [])
    ensures optionValue.Some? && Contains(optionValue.value, inputValue) ==> FilterOption(inputValue, optionValue)
  {
    ContainsEmpty(Lower(optionValue.GetOr([])));
    if optionValue.None? {
      assert Lower([]) == [];
      if FilterOption(inputValue, optionValue) {
        ContainsIff([], Lower(inputValue));
        var k :| OccursAt([], Lower(inputValue), k);
      }
    }
    if optionValue.Some? && Contains(optionValue.value, inputValue) {
      ContainsIff(optionValue.value, inputValue);
      var k :| OccursAt(optionValue.value, inputValue, k);
      var l := Lower(optionValue.value);
      assert l[k..k + |inputValue|] == Lower(inputValue);
      assert OccursAt(l, Lower(inputValue), k);
      ContainsIff(l, Lower(inputValue));
    }
  }

  /** The form's two fields; absent when never filled or after a reset. */
  datatype TrainFields = TrainFields(trainName: Option<string>, route: Option<string>)
  datatype FormValues = FormValues(trainName: string, route: string)

  /** `form.validateFields()`: both fields are required (absent or '' fails) and the route
      must pass `validateRoute`. */
  function ValidateFields(routes: seq<RouteResponse>, fields: TrainFields): (r: Option<FormValues>)
    ensures r.Some? <==>
      fields.trainName.Some? && fields.trainName.value != []
      && fields.route.Some? && fields.route.value != []
      && exists i :: 0 <= i < |routes| && routes[i].routeName == fields.route.value
    ensures r.Some? ==> r.value == FormValues(fields.trainName.value, fields.route.value)
  {
    if fields.trainName.Some? && fields.trainName.value != []
       && fields.route.Some? && fields.route.value != [] && ValidateRoute(routes, fields.route.value)
    then Some(FormValues(fields.trainName.value, fields.route.value))
    else None
  }

  datatype TrainCall =
    | UpdateTrain(trainId: string, trainName: string, route: string)
    | AddTrain(trainName: string, route: string)

  /** The request `handleOk` issues for validated values. */
  function PlanCall(isEditMode: bool, selectedRecord: Option<Train>, values: FormValues): (call: TrainCall)
    ensures call.UpdateTrain? <==> isEditMode && selectedRecord.Some?
    ensures call.UpdateTrain? ==> call.trainId == selectedRecord.value.trainId
    ensures call.trainName == values.trainName && call.route == values.route
  {
    if isEditMode && selectedRecord.Some? then
      UpdateTrain(selectedRecord.value.trainId, values.trainName, values.route)
    else AddTrain(values.trainName, values.route)
  }

  /** The body of a settled request. */
  datatype ReplyData = ReplyData(success: bool, message: Option<string>)

  /** How a request settled: a response whose `data` may be missing (reading
      `data.success` then throws inside the request's own `try`), or an HTTP error with its
      status and the error body's message. */
  datatype TrainReply =
    | Replied(data: Option<ReplyData>)
    | Failed(status: Option<int>, dataMessage: Option<string>)

  /** The list is reloaded only after a response reporting success. */
  predicate Refreshes(reply: TrainReply) {
    reply.Replied? && reply.data.Some? && reply.data.value.success
  }

  /** The texts of one kind of request. */
  datatype Texts = Texts(succeeded: string, failed: string, conflict: string)

  function TextsFor(call: TrainCall): Texts {
    if call.UpdateTrain? then Texts("Cập nhật tàu thành công", "Cập nhật tàu thất bại", "Tên tàu đã tồn tại")
    else Texts("Thêm tàu thành công", "Thêm tàu thất bại", "Tàu đã tồn tại")
  }

  const InvalidData := "Dữ liệu không hợp lệ"

  /** The notification for a settled request. */
  function ReplyToast(call: TrainCall, reply: TrainReply): Toast {
    var t := TextsFor(call);
    match reply
    case Replied(None) => Error(t.failed)
    case Replied(Some(d)) => if d.success then Success(t.succeeded) else Error(OptOrDefault(d.message, t.failed))
    case Failed(status, dm) =>
      if status == Some(409) then Error(t.conflict)
      else if status == Some(400) then Error(OptOrDefault(dm, InvalidData))
      else Error(t.failed)
  }

  /** A success notification appears exactly when the list is reloaded; a 409 gives the
      conflict text; a 400 shows the server's message or the invalid-data text; every other
      failure shows the server's message (for a response) or the failure text. */
  lemma ReplyToastSpec(call: TrainCall, reply: TrainReply)
    ensures ReplyToast(call, reply).Success? <==> Refreshes(reply)
    ensures Refreshes(reply) ==> ReplyToast(call, reply).text == TextsFor(call).succeeded
    ensures reply.Failed? && reply.status == Some(409) ==> ReplyToast(call, reply) == Error(TextsFor(call).conflict)
    ensures reply.Failed? && reply.status == Some(400) ==>
      ReplyToast(call, reply) == Error(OptOrDefault(reply.dataMessage, InvalidData))
    ensures (reply.Failed? && reply.status != Some(409) && reply.status != Some(400)) || reply == Replied(None)
      ==> ReplyToast(call, reply) == Error(TextsFor(call).failed)
    ensures reply.Replied? && reply.data.Some? && !reply.data.value.success ==>
      ReplyToast(call, reply) == Error(OptOrDefault(reply.data.value.message, TextsFor(call).failed))
  {
  }

  /** Update and add requests differ in their texts, never in which outcomes succeed. */
  lemma ModesShareOutcomes(values: FormValues, id: string, reply: TrainReply)
    ensures ReplyToast(UpdateTrain(id, values.trainName, values.route), reply).Success?
      == ReplyToast(AddTrain(values.trainName, values.route), reply).Success?
  {
    ReplyToastSpec(UpdateTrain(id, values.trainName, values.route), reply);
    ReplyToastSpec(AddTrain(values.trainName, values.route), reply);
  }

  const CheckInput := "Vui lòng kiểm tra lại dữ liệu nhập"
  const RefreshFailed := "Không thể làm mới danh sách tàu"

  /** The screen's state. */
  class TrainManager {
    var isModalOpen: bool
    var isEditMode: bool
    var selectedRecord: Option<Train>
    var routes: seq<RouteResponse>
    var dataSource: seq<Train>
    var fields: TrainFields

    constructor ()
      ensures !isModalOpen && !isEditMode && selectedRecord == None
      ensures routes == [] && dataSource == [] && fields == TrainFields(None, None)
    {
      isModalOpen, isEditMode, selectedRecord := false, false, None;
      routes, dataSource, fields := [], [], TrainFields(None, None);
    }

    /** The mount-time `getAllTrain()` settled. */
    method TrainsLoaded(response: Option<seq<Train>>) returns (toast: Option<Toast>)
      modifies this`dataSource
      ensures response.Some? ==> dataSource == response.value && toast == None
      ensures response.None? ==>
        (dataSource == old(dataSource) && toast == Some(Error("Không thể tải danh sách tàu")))
    {
      if response.Some? {
        dataSource, toast := response.value, None;
      } else {
        toast := Some(Error("Không thể tải danh sách tàu"));
      }
    }

    /** The mount-time `getAllRoute()` settled. */
    method RoutesLoaded(response: Option<seq<RouteResponse>>) returns (toast: Option<Toast>)
      modifies this`routes
      ensures response.Some? ==> routes == response.value && toast == None
      ensures response.None? ==>
        (routes == old(routes) && toast == Some(Error("Không thể tải danh sách tuyến")))
    {
      if response.Some? {
        routes, toast := response.value, None;
      } else {
        toast := Some(Error("Không thể tải danh sách tuyến"));
      }
    }

    /** `handleAdd`: an empty form in add mode. */
    method HandleAdd()
      modifies this`isEditMode, this`selectedRecord, this`fields, this`isModalOpen
      ensures !isEditMode && selectedRecord == None && fields == TrainFields(None, None) && isModalOpen
    {
      isEditMode, selectedRecord, fields, isModalOpen := false, None, TrainFields(None, None), true;
    }

    /** `handleEdit(record)`: the form holds the record's name and route, in edit mode. */
    method HandleEdit(record: Train)
      modifies this`isEditMode, this`selectedRecord, this`fields, this`isModalOpen
      ensures isEditMode && selectedRecord == Some(record) && isModalOpen
      ensures fields == TrainFields(Some(record.trainName), Some(record.route))
    {
      isEditMode, selectedRecord, isModalOpen := true, Some(record), true;
      fields := TrainFields(Some(record.trainName), Some(record.route));
    }

    /** Typing into the train-name `Input`: its `Form.Item` stores the text, '' included. */
    method ChangeTrainName(value: string)
      modifies this`fields
      ensures fields == TrainFields(Some(value), old(fields).route)
    {
      fields := fields.(trainName := Some(value));
    }

    /** Typing into, or picking from, the route `AutoComplete`: its `Form.Item` stores the
        text. */
    method ChangeRoute(value: string)
      modifies this`fields
      ensures fields == TrainFields(old(fields).trainName, Some(value))
    {
      fields := fields.(route := Some(value));
    }

    /** `handleOk`, with the request's outcome and the outcome of the reload it may trigger
        as inputs. Invalid input shows one warning and leaves everything as it was. Valid
        input issues the planned request, shows its notification (and a second one when the
        reload fails), reloads the list only after success, and then closes the modal and
        empties the form whatever the outcome. */
    method HandleOk(reply: TrainReply, refresh: Option<seq<Train>>) returns (call: Option<TrainCall>, toasts: seq<Toast>)
      modifies this`dataSource, this`isModalOpen, this`fields
      ensures ValidateFields(routes, old(fields)).None? ==>
        (call == None && toasts == [Error(CheckInput)]
         && dataSource == old(dataSource) && isModalOpen == old(isModalOpen) && fields == old(fields))
      ensures ValidateFields(routes, old(fields)).Some? ==>
        (call == Some(PlanCall(isEditMode, selectedRecord, ValidateFields(routes, old(fields)).value))
         && toasts == [ReplyToast(call.value, reply)]
                      + (if Refreshes(reply) && refresh.None? then [Error(RefreshFailed)] else [])
         && (if Refreshes(reply) && refresh.Some? then dataSource == refresh.value else dataSource == old(dataSource))
         && !isModalOpen && fields == TrainFields(None, None))
    {
      var values := ValidateFields(routes, fields);
      if values.None? {
        return None, [Error(CheckInput)];
      }
      var c := PlanCall(isEditMode, selectedRecord, values.value);
      call := Some(c);
      toasts := [ReplyToast(c, reply)];
      if Refreshes(reply) {
        if refresh.Some? {
          dataSource := refresh.value;
        } else {
          toasts := toasts + [Error(RefreshFailed)];
        }
      }
      isModalOpen := false;
      fields := TrainFields(None, None);
    }

    /** `handleCancel`. */
    method HandleCancel()
      modifies this`isModalOpen, this`fields
      ensures !isModalOpen && fields == TrainFields(None, None)
    {
      isModalOpen, fields := false, TrainFields(None, None);
    }
  }
}
