/**
 * The "Create Type" modal: a name, a display type chosen from a fixed list,
 * and a status, sent as one JSON object; and the effect that reacts to the
 * type slice's messages.
 */
module CreateTypeForm {
  import opened Options
  import opened Text
  import opened Validation
  import opened AsyncOp
  import opened FormCommon
  import ProductDraft
  import TypeSlice

  datatype TypeForm = TypeForm(name: string, displayType: string, status: int)

  const EmptyTypeForm := TypeForm("", "", 1)

  /** The values the display-type dropdown offers besides the empty "Select". */
  const DisplayTypes := ["color", "size", "text"]

  datatype TypeInput = NameInput | DisplayTypeInput

  /** `handleChange`: the input's own field takes the value. */
  function SetInput(f: TypeForm, input: TypeInput, value: string): (r: TypeForm)
    ensures input == NameInput ==> r == f.(name := value)
    ensures input == DisplayTypeInput ==> r == f.(displayType := value)
  {
    match input
    case NameInput => f.(name := value)
    case DisplayTypeInput => f.(displayType := value)
  }

  function TypeChecks(f: TypeForm): seq<Check> {
    [Check(!IsBlank(f.name), "Name is required"), Check(f.displayType != "", "Display type is required")]
  }

  /**
   * `handleSubmit`: the trimmed name, then the display type; the form is sent
   * as it stands, with the name untrimmed.
   */
  function SubmitType(f: TypeForm): (r: Outcome<TypeForm>)
    ensures IsBlank(f.name) ==> r == Warned("Name is required")
    ensures !IsBlank(f.name) && f.displayType == "" ==> r == Warned("Display type is required")
    ensures r.Dispatched? <==> !IsBlank(f.name) && f.displayType != ""
    ensures r.Dispatched? ==> r.request == f
  {
    var cs := TypeChecks(f);
    if IsBlank(f.name) then (FirstFailureIs(cs, 0); Submit(cs, f))
    else if f.displayType == "" then (FirstFailureIs(cs, 1); Submit(cs, f))
    else Submit(cs, f)
  }

  /**
   * The dropdown offers no "unit" type, so the product editor's unit branch
   * never asks for a unit for a type made here: a non-blank value is always
   * sent.
   */
  lemma NoOfferedTypeAsksForUnit(dt: string, typeId: string, value: string, colorCode: string, unit: string)
    requires dt in DisplayTypes && !IsBlank(value)
    ensures ProductDraft.KindOf(Some(dt)) != ProductDraft.UnitValue
    ensures ProductDraft.CreateValueRequest(ProductDraft.KindOf(Some(dt)), typeId, value, colorCode, unit).Dispatched?
  {
  }

  /** What the message effect does: the toasts it shows, whether it closes the modal, whether it clears the slice's messages. */
  datatype Reaction = Reaction(alerts: seq<Alert>, closes: bool, clears: bool)

  /**
   * The effect over a success and an error message: a success is shown, the
   * modal closed and the messages cleared; an error is shown and the
   * messages cleared.
   */
  function React(success: Option<string>, error: Option<string>): (r: Reaction)
    ensures r.closes <==> Truthy(success)
    ensures r.clears <==> Truthy(success) || Truthy(error)
    ensures |r.alerts| == (if Truthy(success) then 1 else 0) + (if Truthy(error) then 1 else 0)
    ensures Truthy(success) ==> r.alerts[0] == Success(success.value)
    ensures Truthy(error) ==> r.alerts[|r.alerts| - 1] == Failure(error.value)
  {
    Reaction((if Truthy(success) then [Success(success.value)] else [])
             + (if Truthy(error) then [Failure(error.value)] else []),
             Truthy(success), Truthy(success) || Truthy(error))
  }

  /**
   * The messages the modal reads as written: it destructures `successMsg`
   * and `errorMsg`, which the type slice does not have, so both are absent
   * whatever the store holds.
   */
  function SelectedAsWritten(s: Status): (Option<string>, Option<string>) {
    (None, None)
  }

  /**
   * As written, a created type is never announced, the modal stays open
   * with the old form, and the slice keeps its message; a failed request is
   * never reported either.
   */
  lemma TypeModalIgnoresStore(s: Status, m: Option<string>, e: string)
    requires e != ""
    ensures var t := Fulfilled(Pending(s), m, "Type created!");
      Truthy(t.success)
      && React(SelectedAsWritten(t).0, SelectedAsWritten(t).1) == Reaction([], false, false)
    ensures var t := TypeSlice.RejectedAsIs(Pending(s), Some(e));
      Truthy(t.error)
      && React(SelectedAsWritten(t).0, SelectedAsWritten(t).1) == Reaction([], false, false)
  {
  }

  /** The messages the slice keeps: `successMessage` and `errorMessage`. */
  function Selected(s: Status): (r: (Option<string>, Option<string>))
    ensures r.0 == s.success && r.1 == s.error
  {
    (s.success, s.error)
  }

  /**
   * Read under their own names, a created type is announced with the
   * slice's message and closes the modal; a failure is reported and leaves
   * it open.
   */
  lemma TypeModalFollowsStore(s: Status, m: Option<string>, e: string)
    requires e != ""
    ensures var t := Fulfilled(Pending(s), m, "Type created!");
      React(Selected(t).0, Selected(t).1) == Reaction([Success(OrDefault(m, "Type created!"))], true, true)
    ensures var t := TypeSlice.RejectedAsIs(Pending(s), Some(e));
      React(Selected(t).0, Selected(t).1) == Reaction([Failure(e)], false, true)
  {
  }

  /** The modal: its form, whether it is open, and the toasts it has shown. */
  class TypeModal {
    var form: TypeForm
    var isOpen: bool
    var alerts: seq<Alert>

    constructor (isOpen: bool)
      ensures form == EmptyTypeForm && this.isOpen == isOpen && alerts == []
    {
      form, this.isOpen, alerts := EmptyTypeForm, isOpen, [];
    }

    method HandleChange(input: TypeInput, value: string)
      modifies this`form
      ensures form == SetInput(old(form), input, value)
    {
      form := SetInput(form, input, value);
    }

    method HandleStatusToggle()
      modifies this`form
      ensures form == old(form).(status := ToggleOneTwo(old(form.status)))
    {
      form := form.(status := ToggleOneTwo(form.status));
    }

    method HandleClose()
      modifies this`form, this`isOpen
      ensures form == EmptyTypeForm && !isOpen
    {
      form := EmptyTypeForm;
      isOpen := false;
    }

    /** Warns and sends nothing, or sends the form; the form stays as it is either way. */
    method HandleSubmit() returns (request: Option<TypeForm>)
      modifies this`alerts
      ensures SubmitType(form).Warned? ==>
        request == None && alerts == old(alerts) + [Warning(SubmitType(form).message)]
      ensures SubmitType(form).Dispatched? ==> request == Some(form) && alerts == old(alerts)
    {
      match SubmitType(form)
      case Warned(message) =>
        alerts := alerts + [Warning(message)];
        request := None;
      case Dispatched(f) =>
        request := Some(f);
    }

    /**
     * The message effect as written: it reads `successMsg` and `errorMsg`,
     * which are never set, so it shows nothing, keeps the modal as it is and
     * never clears the slice's messages. `clears` is the `clearTypeMessage`
     * dispatch.
     */
    method OnTypeMessages(s: Status) returns (clears: bool)
      modifies this`form, this`isOpen, this`alerts
      ensures alerts == old(alerts) && !clears
      ensures form == old(form) && isOpen == old(isOpen)
    {
      var sel := SelectedAsWritten(s);
      var re := React(sel.0, sel.1);
      // With both messages absent `re.closes` is false: the close never runs.
      alerts := alerts + re.alerts;
      clears := re.clears;
    }

    /** The message effect the modal evidently intends, reading the slice's messages under their own names. */
    method OnTypeMessagesIntended(s: Status) returns (clears: bool)
      modifies this`form, this`isOpen, this`alerts
      ensures var re := React(Selected(s).0, Selected(s).1);
        alerts == old(alerts) + re.alerts && clears == re.clears
        && (re.closes ==> form == EmptyTypeForm && !isOpen)
        && (!re.closes ==> form == old(form) && isOpen == old(isOpen))
    {
      var re := React(s.success, s.error);
      alerts := alerts + re.alerts;
      if re.closes {
        HandleClose();
      }
      clears := re.clears;
    }
  }
}

/**
 * The "Create Type Name" modal: a value of a type, with one image, sent as a
 * multipart body.
 */
module CreateTypeNameForm {
  import opened Options
  import opened Text
  import opened Wire
  import opened Validation
  import opened AsyncOp
  import opened FormCommon
  import CreateTypeForm

  datatype NameForm = NameForm(typeId: string, name: string, typeNameImage: Option<FileId>, status: int)

  const EmptyNameForm := NameForm("", "", None, 1)

  datatype NameInput = TypeIdInput | NameTextInput

  /** `handleChange` on a text input or the type dropdown. */
  function SetInput(f: NameForm, input: NameInput, value: string): (r: NameForm)
    ensures input == TypeIdInput ==> r == f.(typeId := value)
    ensures input == NameTextInput ==> r == f.(name := value)
  {
    match input
    case TypeIdInput => f.(typeId := value)
    case NameTextInput => f.(name := value)
  }

  function NameChecks(f: NameForm): seq<Check> {
    [Check(f.typeId != "", "Please select Type"),
     Check(!IsBlank(f.name), "Type Name is required"),
     Check(f.typeNameImage.Some?, "Image is required")]
  }

  function NameBody(f: NameForm, image: FileId): seq<Field> {
    [Field(Name("typeId"), Str(f.typeId)), Field(Name("name"), Str(f.name)),
     Field(Name("status"), Num(f.status as real)), Field(Name("typeNameImage"), Blob(image))]
  }

  /** `handleSubmit`: type, trimmed name and image are required, in that order. */
  function SubmitTypeName(f: NameForm): (r: Outcome<seq<Field>>)
    ensures f.typeId == "" ==> r == Warned("Please select Type")
    ensures f.typeId != "" && IsBlank(f.name) ==> r == Warned("Type Name is required")
    ensures f.typeId != "" && !IsBlank(f.name) && f.typeNameImage.None? ==> r == Warned("Image is required")
    ensures r.Dispatched? <==> f.typeId != "" && !IsBlank(f.name) && f.typeNameImage.Some?
  {
    var cs := NameChecks(f);
    if f.typeId == "" then (FirstFailureIs(cs, 0); Warned(FirstFailure(cs).value))
    else if IsBlank(f.name) then (FirstFailureIs(cs, 1); Warned(FirstFailure(cs).value))
    else if f.typeNameImage.None? then (FirstFailureIs(cs, 2); Warned(FirstFailure(cs).value))
    else Dispatched(NameBody(f, f.typeNameImage.value))
  }

  /**
   * A sent body has exactly the entries typeId, name, status and
   * typeNameImage, in that order, each once; the name goes untrimmed.
   */
  lemma TypeNamePayloadReadsBack(f: NameForm)
    requires SubmitTypeName(f).Dispatched?
    ensures var body := SubmitTypeName(f).request;
      Keys(body) == [Name("typeId"), Name("name"), Name("status"), Name("typeNameImage")]
      && ValuesOf(body, Name("typeId")) == [Str(f.typeId)]
      && ValuesOf(body, Name("name")) == [Str(f.name)]
      && ValuesOf(body, Name("status")) == [Num(f.status as real)]
      && ValuesOf(body, Name("typeNameImage")) == [Blob(f.typeNameImage.value)]
  {
    var body := SubmitTypeName(f).request;
    assert body == NameBody(f, f.typeNameImage.value);
    ValuesOfUnique(body, 0);
    ValuesOfUnique(body, 1);
    ValuesOfUnique(body, 2);
    ValuesOfUnique(body, 3);
  }

  /** The modal: its form, whether it is open, and the toasts it has shown. */
  class TypeNameModal {
    var form: NameForm
    var isOpen: bool
    var alerts: seq<Alert>

    constructor (isOpen: bool)
      ensures form == EmptyNameForm && this.isOpen == isOpen && alerts == []
    {
      form, this.isOpen, alerts := EmptyNameForm, isOpen, [];
    }

    method HandleChange(input: NameInput, value: string)
      modifies this`form
      ensures form == SetInput(old(form), input, value)
    {
      form := SetInput(form, input, value);
    }

    /** The file input keeps only the first picked file, and forgets the image when none is picked. */
    method HandleImageChange(files: seq<FileId>)
      modifies this`form
      ensures form == old(form).(typeNameImage := FirstFile(files))
    {
      form := form.(typeNameImage := FirstFile(files));
    }

    method HandleStatusToggle()
      modifies this`form
      ensures form == old(form).(status := ToggleOneTwo(old(form.status)))
    {
      form := form.(status := ToggleOneTwo(form.status));
    }

    method HandleClose()
      modifies this`form, this`isOpen
      ensures form == EmptyNameForm && !isOpen
    {
      form := EmptyNameForm;
      isOpen := false;
    }

    method HandleSubmit() returns (body: Option<seq<Field>>)
      modifies this`alerts
      ensures SubmitTypeName(form).Warned? ==>
        body == None && alerts == old(alerts) + [Warning(SubmitTypeName(form).message)]
      ensures SubmitTypeName(form).Dispatched? ==>
        body == Some(SubmitTypeName(form).request) && alerts == old(alerts)
    {
      match SubmitTypeName(form)
      case Warned(message) =>
        alerts := alerts + [Warning(message)];
        body := None;
      case Dispatched(b) =>
        body := Some(b);
    }

    /** The message effect, which reads `successMessage` and `errorMessage` as the slice names them. */
    method OnTypeMessages(s: Status) returns (clears: bool)
      modifies this`form, this`isOpen, this`alerts
      ensures var re := CreateTypeForm.React(s.success, s.error);
        alerts == old(alerts) + re.alerts && clears == re.clears
        && (re.closes ==> form == EmptyNameForm && !isOpen)
        && (!re.closes ==> form == old(form) && isOpen == old(isOpen))
    {
      var re := CreateTypeForm.React(s.success, s.error);
      alerts := alerts + re.alerts;
      if re.closes {
        HandleClose();
      }
      clears := re.clears;
    }
  }
}
