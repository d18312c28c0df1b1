/**
 * The add-trip form: the train picker's keys and its case-insensitive search, the submit
 * chain (valid train, then a date after the start of today, then the request) and the
 * mapping of the server's answer to a notification.
 */
module AddTrip {
  import opened Wrappers
  import opened Text
  import opened Seqs

  datatype TrainResponse = TrainResponse(trainId: string, trainName: string, route: string)

  /** `train.trainId || \`fallback-${train.trainName}\``. */
  function TrainKey(t: TrainResponse): string {
    if t.trainId == [] then "fallback-" + t.trainName else t.trainId
  }

  /** A key is the train's id when it has one and the fallback text otherwise; either way it
      is never empty. */
  lemma TrainKeySpec(t: TrainResponse)
    ensures t.trainId != [] ==> TrainKey(t) == t.trainId
    ensures t.trainId == [] ==> TrainKey(t) == "fallback-" + t.trainName
    ensures TrainKey(t) != []
  {
  }

  /** An AutoComplete option (`labelText` is its `label`). */
  datatype SelectOption = SelectOption(value: string, labelText: string)

  function OptionOf(t: TrainResponse): SelectOption {
    SelectOption(TrainKey(t), t.trainName + " - " + t.route)
  }

  /** The search test: name or route contains the text, ignoring case. */
  predicate MatchesSearch(t: TrainResponse, text: string) {
    ContainsIgnoringCase(t.trainName, text) || ContainsIgnoringCase(t.route, text)
  }

  /** The options `handleSearch(searchText)` stores. */
  function SearchOptions(trains: seq<TrainResponse>, text: string): seq<SelectOption> {
    if text == [] then Map(trains, OptionOf)
    else Map(Filter(trains, t => MatchesSearch(t, text)), OptionOf)
  }

  /** An empty search offers one option per train, in order. */
  lemma EmptySearchOffersAll(trains: seq<TrainResponse>)
    ensures |SearchOptions(trains, [])| == |trains|
    ensures forall i :: 0 <= i < |trains| ==>
      SearchOptions(trains, [])[i] == SelectOption(TrainKey(trains[i]), trains[i].trainName + " - " + trains[i].route)
  {
  }

  /** A search offers the options of an order-preserving selection of the trains that keeps,
      with all their occurrences, exactly the trains whose name or route contains the text
      ignoring case. The empty text matches every train, so the `!searchText` branch agrees
      with the filtering one. */
  lemma SearchSelectsMatchingTrains(trains: seq<TrainResponse>, text: string)
    ensures exists kept ::
      SearchOptions(trains, text) == Map(kept, OptionOf)
      && IsSubsequence(kept, trains)
      && forall t :: multiset(kept)[t] == if MatchesSearch(t, text) then multiset(trains)[t] else 0
  {
    var p := t => MatchesSearch(t, text);
    var kept := Filter(trains, p);
    FilterIsSubsequence(trains, p);
    forall t ensures multiset(kept)[t] == if p(t) then multiset(trains)[t] else 0 {
      FilterMultiplicity(trains, p, t);
    }
    if text == [] {
      forall i | 0 <= i < |trains| ensures p(trains[i]) {
        ContainsEmpty(Lower(trains[i].trainName));
        assert Lower([]) == [];
      }
      FilterAll(trains, p);
    }
    assert SearchOptions(trains, text) == Map(kept, OptionOf);
  }

  /** `trains.find(train => key(train) === values.trainId)`. */
  function FindTrain(trains: seq<TrainResponse>, trainId: Option<string>): Option<TrainResponse>
    decreases |trains|
  {
    if trains == [] then None
    else if trainId == Some(TrainKey(trains[0])) then Some(trains[0])
    else FindTrain(trains[1..], trainId)
  }

  /** The search for the chosen train finds the first train whose key is the form value, and
      finds nothing exactly when no train has that key. */
  lemma {:induction false} FindTrainSpec(trains: seq<TrainResponse>, trainId: Option<string>)
    ensures FindTrain(trains, trainId).None? <==>
      forall i :: 0 <= i < |trains| ==> trainId != Some(TrainKey(trains[i]))
    ensures FindTrain(trains, trainId).Some? ==>
      exists i :: 0 <= i < |trains| && trains[i] == FindTrain(trains, trainId).value
        && trainId == Some(TrainKey(trains[i]))
        && forall j :: 0 <= j < i ==> trainId != Some(TrainKey(trains[j]))
    decreases |trains|
  {
    if trains != [] && trainId != Some(TrainKey(trains[0])) {
      FindTrainSpec(trains[1..], trainId);
      if FindTrain(trains[1..], trainId).Some? {
        var i :| 0 <= i < |trains[1..]| && trains[1..][i] == FindTrain(trains[1..], trainId).value
          && trainId == Some(TrainKey(trains[1..][i]))
          && forall j :: 0 <= j < i ==> trainId != Some(TrainKey(trains[1..][j]));
        assert trains[i + 1] == trains[1..][i];
        forall j | 0 <= j < i + 1 ensures trainId != Some(TrainKey(trains[j])) {
          if j > 0 { assert trains[j] == trains[1..][j - 1]; }
        }
      } else {
        forall i | 0 <= i < |trains| ensures trainId != Some(TrainKey(trains[i])) {
          if i > 0 { assert trains[i] == trains[1..][i - 1]; }
        }
      }
    } else if trains != [] {
      assert trains[0] == FindTrain(trains, trainId).value;
    }
  }

  /** The `trainId` field's validator: a non-empty value equal to some train's key. */
  predicate ValidTrainValue(trains: seq<TrainResponse>, value: Option<string>) {
    value.Some? && value.value != []
    && exists i :: 0 <= i < |trains| && TrainKey(trains[i]) == value.value
  }

  /** The field validator accepts exactly the values the submit check finds a train for. */
  lemma ValidatorAgreesWithSubmitCheck(trains: seq<TrainResponse>, value: Option<string>)
    ensures ValidTrainValue(trains, value) <==> FindTrain(trains, value).Some?
  {
    FindTrainSpec(trains, value);
    if FindTrain(trains, value).Some? {
      var i :| 0 <= i < |trains| && value == Some(TrainKey(trains[i]));
      TrainKeySpec(trains[i]);
    }
  }

  /** The form's values; `tripDate` is a point in time and absent when not picked. */
  datatype TripForm = TripForm(
    trainId: Option<string>, tripDate: Option<int>, basePrice: int,
    numSoftSeatCarriages: int, numSixBerthCarriages: int, numFourBerthCarriages: int)

  /** The request body; `tripDate` is the picked day to be formatted, absent for ''. */
  datatype AddTripRequest = AddTripRequest(
    trainId: string, basePrice: int, tripDate: Option<int>,
    numSoftSeatCarriages: int, numSixBerthCarriages: int, numFourBerthCarriages: int)

  function Payload(values: TripForm): (r: AddTripRequest) {
    AddTripRequest(
      values.trainId.GetOr([]), values.basePrice, values.tripDate,
      values.numSoftSeatCarriages, values.numSixBerthCarriages, values.numFourBerthCarriages)
  }

  /** The payload copies price, date and carriage counts, and turns a missing train id into ''. */
  lemma PayloadSpec(values: TripForm)
    ensures var p := Payload(values);
      p.basePrice == values.basePrice && p.tripDate == values.tripDate
      && p.numSoftSeatCarriages == values.numSoftSeatCarriages
      && p.numSixBerthCarriages == values.numSixBerthCarriages
      && p.numFourBerthCarriages == values.numFourBerthCarriages
      && (values.trainId.Some? ==> p.trainId == values.trainId.value)
      && (values.trainId.None? ==> p.trainId == [])
  {
  }

  /** How `addTrip(payload)` settled: a body with `success` and `message` (the message may
      be missing), or a thrown HTTP error with its status and the body's message, if any. */
  datatype AddTripReply =
    | Replied(success: bool, message: Option<string>)
    | HttpError(status: Option<int>, dataMessage: Option<string>)

  const AlreadyExistsVi := "Chuyến tàu đã tồn tại"
  const AlreadyExistsHttp := "Trip already exists"
  const FailedToAdd := "Failed to add trip"
  const UnexpectedError := "An error occurred while adding the trip"
  const TripAdded := "Thêm chuyến tàu thành công"

  /** The notification for a settled request. A failed body without a message makes
      `toLowerCase` throw, which the `catch` reports as an error without a response. */
  function ReplyToast(reply: AddTripReply): Toast {
    match reply
    case Replied(true, _) => Success(TripAdded)
    case Replied(false, None) => Error(UnexpectedError)
    case Replied(false, Some(m)) =>
      if Contains(Lower(m), "already exists") then Error(AlreadyExistsVi)
      else Error(OrDefault(m, FailedToAdd))
    case HttpError(status, dm) =>
      if status == Some(409) then Error(AlreadyExistsHttp)
      else Error(OptOrDefault(dm, UnexpectedError))
  }

  /** Only a successful body gives a success notification; a failure message saying
      'already exists' in any letter case gives the conflict text; HTTP 409 gives its own
      conflict text; every other failure shows the server's message or a default. */
  lemma ReplyToastSpec(reply: AddTripReply)
    ensures ReplyToast(reply).Success? <==> reply.Replied? && reply.success
    ensures (reply.Replied? && !reply.success && reply.message.Some?
             && ContainsIgnoringCase(reply.message.value, "already exists"))
      ==> ReplyToast(reply) == Error(AlreadyExistsVi)
    ensures (reply.Replied? && !reply.success && reply.message.Some?
             && !ContainsIgnoringCase(reply.message.value, "already exists"))
      ==> ReplyToast(reply) == Error(OrDefault(reply.message.value, FailedToAdd))
    ensures reply.HttpError? && reply.status == Some(409) ==> ReplyToast(reply) == Error(AlreadyExistsHttp)
    ensures reply.HttpError? && reply.status != Some(409) ==>
      ReplyToast(reply) == Error(OptOrDefault(reply.dataMessage, UnexpectedError))
  {
    if reply.Replied? && reply.message.Some? {
      assert Lower("already exists") == "already exists";
    }
  }

  /** Where a submit ends: an error on one field with no request, or the request sent. */
  datatype SubmitOutcome =
    | TrainFieldError(text: string)
    | DateFieldError(text: string)
    | Sent(payload: AddTripRequest, toast: Toast, resetForm: bool)

  /** `handleSubmit(values)`, with the start of today and the request's outcome as inputs. */
  function SubmitTrip(trains: seq<TrainResponse>, values: TripForm, startOfToday: int, reply: AddTripReply): SubmitOutcome {
    if FindTrain(trains, values.trainId).None? then TrainFieldError("Hãy chọn tàu trong danh sách")
    else if values.tripDate.Some? && values.tripDate.value <= startOfToday then
      DateFieldError("Ngày chuyến tàu phải là ngày trong tương lai")
    else Sent(Payload(values), ReplyToast(reply), reply.Replied? && reply.success)
  }

  /** No request is made for an unknown train or for a date at or before the start of today;
      the train check comes first; otherwise the payload of the form is sent, and the form is
      reset only when the server reports success. */
  lemma SubmitChain(trains: seq<TrainResponse>, values: TripForm, startOfToday: int, reply: AddTripReply)
    ensures var out := SubmitTrip(trains, values, startOfToday, reply);
      (out.TrainFieldError? <==> forall i :: 0 <= i < |trains| ==> values.trainId != Some(TrainKey(trains[i])))
      && (out.DateFieldError? <==>
            (exists i :: 0 <= i < |trains| && values.trainId == Some(TrainKey(trains[i])))
            && values.tripDate.Some? && values.tripDate.value <= startOfToday)
      && (out.Sent? ==>
            (out.payload == Payload(values) && out.payload.trainId != [] && out.toast == ReplyToast(reply)
             && (values.tripDate.Some? ==> values.tripDate.value > startOfToday)
             && out.resetForm == ReplyToast(reply).Success?))
  {
    FindTrainSpec(trains, values.trainId);
    ReplyToastSpec(reply);
    if FindTrain(trains, values.trainId).Some? {
      var i :| 0 <= i < |trains| && values.trainId == Some(TrainKey(trains[i]));
      TrainKeySpec(trains[i]);
    }
  }

  /** The form's state. */
  class AddTripForm {
    var trains: seq<TrainResponse>
    var options: seq<SelectOption>
    var loading: bool
    /** The value held by the form's `trainId` field. */
    var trainIdField: Option<string>

    constructor ()
      ensures trains == [] && options == [] && !loading && trainIdField == None
    {
      trains, options, loading, trainIdField := [], [], false, None;
    }

    /** `handleSelect(value)`: the picked option's key becomes the field's value. */
    method HandleSelect(value: string)
      modifies this`trainIdField
      ensures trainIdField == Some(value)
    {
      trainIdField := Some(value);
    }

    /** A change of the AutoComplete's text. The enclosing `Form.Item` first stores the new
        text as the field's value, then calls the component's own `onChange`, which clears
        the field when the text is empty. */
    method HandleChange(value: string)
      modifies this`trainIdField
      ensures trainIdField == if value == [] then None else Some(value)
    {
      trainIdField := Some(value);
      if value == [] {
        trainIdField := None;
      }
    }

    /** The mount-time `getAllTrain()` settled: on success store the trains and offer all of
        them; on failure report it and keep the empty lists. */
    method TrainsLoaded(response: Option<seq<TrainResponse>>) returns (toast: Option<Toast>)
      modifies this`trains, this`options
      ensures response.Some? ==>
        (trains == response.value && options == SearchOptions(response.value, []) && toast == None)
      ensures response.None? ==>
        (trains == old(trains) && options == old(options) && toast == Some(Error("Failed to load trains")))
    {
      if response.Some? {
        trains := response.value;
        options := Map(response.value, OptionOf);
        toast := None;
      } else {
        toast := Some(Error("Failed to load trains"));
      }
    }

    /** `handleSearch(searchText)`. */
    method HandleSearch(searchText: string)
      modifies this`options
      ensures options == SearchOptions(trains, searchText)
    {
      options := SearchOptions(trains, searchText);
    }

    /** `handleSubmit(values)`. The form calls it with the values of its fields, so the
        train id submitted is the one the field holds. The loading flag is raised while it
        runs and is down again when it returns, on every path. An unknown train empties the
        train field, and so does the form reset after a success; otherwise the field keeps
        its value. */
    method HandleSubmit(values: TripForm, startOfToday: int, reply: AddTripReply) returns (out: SubmitOutcome)
      requires values.trainId == trainIdField
      modifies this`loading, this`trainIdField
      ensures out == SubmitTrip(trains, values, startOfToday, reply)
      ensures !loading
      ensures (out.TrainFieldError? || (out.Sent? && out.resetForm)) ==> trainIdField == None
      ensures !(out.TrainFieldError? || (out.Sent? && out.resetForm)) ==> trainIdField == old(trainIdField)
    {
      loading := true;
      var selected := FindTrain(trains, values.trainId);
      if selected.None? {
        trainIdField := None;
        loading := false;
        return TrainFieldError("Hãy chọn tàu trong danh sách");
      }
      if values.tripDate.Some? && values.tripDate.value <= startOfToday {
        loading := false;
        return DateFieldError("Ngày chuyến tàu phải là ngày trong tương lai");
      }
      var payload := Payload(values);
      out := Sent(payload, ReplyToast(reply), reply.Replied? && reply.success);
      if out.resetForm {
        trainIdField := None;
      }
      loading := false;
    }
  }
}
