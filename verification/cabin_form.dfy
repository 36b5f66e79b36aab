/** The cabin form: whether it edits an existing cabin, the validation
    rules registered on its inputs, and what submitting it dispatches.

    Submitting first runs every field rule; only a form without errors
    reaches `onSubmit`, which builds the payload and fires exactly one of
    the two mutations, each of which calls `createEditCabin`. */
module CabinForm {
  import opened Results
  import opened Cabins

  datatype Field = Name | MaxCapacity | RegularPrice | Discount | Description | Photo

  const AllFields: set<Field> := {Name, MaxCapacity, RegularPrice, Discount, Description, Photo}

  const RequiredMessage := "This field is required"
  const CapacityMessage := "Capacity should be at least 1"
  const PriceMessage := "Price should be at least 1"
  const DiscountMessage := "Discount should be less than regular price"
  const PhotoMessage := "File is required"

  /** What the `image_url` file input holds. */
  datatype PhotoInput =
    | Unset                      // `undefined`
    | TextInput(s: string)       // a string
    | FileList(files: seq<File>) // the chosen files

  /** The submitted form: the cabin fields plus the `image_url` input. */
  datatype FormValues = FormValues(data: CabinData, imageUrl: PhotoInput)

  /** A mutation fired by `onSubmit`. */
  datatype Mutation =
    | CreateCabin(cabin: CabinData)
    | EditCabin(cabin: CabinData, editId: int)

  /** What one press of the submit button leads to. */
  datatype Submission =
    | Rejected(errors: map<Field, string>) // a rule failed; `onSubmit` is not called
    | NoImageSelected                      // `onSubmit` shows an error and returns
    | Mutate(mutation: Mutation)

  // ---------------------------------------------------------------------
  // Edit session
  // ---------------------------------------------------------------------

  /** `cabinToEdit.id`, where a missing `cabinToEdit` is the empty object. */
  function EditId(cabinToEdit: Option<Cabin>): (editId: Option<int>)
    ensures cabinToEdit.None? ==> editId.None?
    ensures editId.Some? ==> cabinToEdit.Some? && cabinToEdit.value.id == editId
  {
    if cabinToEdit.Some? then cabinToEdit.value.id else None
  }

  /** `Boolean(editId)` */
  predicate IsEditSession(cabinToEdit: Option<Cabin>): (editing: bool)
    ensures cabinToEdit.None? ==> !editing
    ensures cabinToEdit.Some? ==> (editing <==> cabinToEdit.value.id.Some? && cabinToEdit.value.id.value != 0)
  {
    TruthyNumber(EditId(cabinToEdit))
  }

  /** The form's default values: the cabin without its id when editing,
      nothing otherwise. */
  function DefaultValues(cabinToEdit: Option<Cabin>): (defaults: Option<CabinData>)
    ensures defaults.Some? <==> cabinToEdit.Some? && TruthyNumber(cabinToEdit.value.id)
    ensures defaults.Some? ==> Cabin(cabinToEdit.value.id, defaults.value) == cabinToEdit.value
  {
    if IsEditSession(cabinToEdit) then Some(cabinToEdit.value.data) else None
  }

  // ---------------------------------------------------------------------
  // Field rules
  // ---------------------------------------------------------------------

  /** `required` plus `min: 1` on a number input. */
  function AtLeastOneRule(value: Option<int>, message: string): Option<string> {
    if value.None? then Some(RequiredMessage)
    else if value.value < 1 then Some(message)
    else None
  }

  /** The discount rule compares with the regular price using `<=`. */
  predicate DiscountWithinPrice(data: CabinData) {
    data.discount.Some? && data.regularPrice.Some? && data.discount.value <= data.regularPrice.value
  }

  /** The photo rule: a string, or exactly one file. */
  predicate PhotoAccepted(input: PhotoInput) {
    input.TextInput? || (input.FileList? && |input.files| == 1)
  }

  /** The message react-hook-form records for one field, if any. */
  function FieldError(field: Field, values: FormValues, isEditSession: bool): (message: Option<string>)
    // each field has only its own messages
    ensures field == Name || field == Description ==> message.None? || message == Some(RequiredMessage)
    ensures field == MaxCapacity ==> message.None? || message == Some(RequiredMessage) || message == Some(CapacityMessage)
    ensures field == RegularPrice ==> message.None? || message == Some(RequiredMessage) || message == Some(PriceMessage)
    ensures field == Discount ==> message.None? || message == Some(RequiredMessage) || message == Some(DiscountMessage)
    ensures field == Photo ==> message.None? || message == Some(PhotoMessage)
    // "required" is reported exactly for an empty required field
    ensures message == Some(RequiredMessage) <==>
              || (field == Name && values.data.name == "")
              || (field == MaxCapacity && values.data.maxCapacity.None?)
              || (field == RegularPrice && values.data.regularPrice.None?)
              || (field == Discount && values.data.discount.None?)
              || (field == Description && !isEditSession && values.data.description == "")
  {
    var data := values.data;
    match field
    case Name => if data.name == "" then Some(RequiredMessage) else None
    case MaxCapacity => AtLeastOneRule(data.maxCapacity, CapacityMessage)
    case RegularPrice => AtLeastOneRule(data.regularPrice, PriceMessage)
    case Discount =>
      if data.discount.None? then Some(RequiredMessage)
      else if DiscountWithinPrice(data) then None
      else Some(DiscountMessage)
    case Description =>
      if !isEditSession && data.description == "" then Some(RequiredMessage) else None
    case Photo => if PhotoAccepted(values.imageUrl) then None else Some(PhotoMessage)
  }

  /** Every field's message. */
  function Errors(values: FormValues, isEditSession: bool): (errors: map<Field, string>)
    ensures errors.Keys <= AllFields
  {
    map field | field in AllFields && FieldError(field, values, isEditSession).Some?
      :: FieldError(field, values, isEditSession).value
  }

  /** The form's validity, rule by rule. */
  predicate IsValid(values: FormValues, isEditSession: bool) {
    var data := values.data;
    && data.name != ""
    && data.maxCapacity.Some? && data.maxCapacity.value >= 1
    && data.regularPrice.Some? && data.regularPrice.value >= 1
    && DiscountWithinPrice(data)
    && (isEditSession || data.description != "")
    && PhotoAccepted(values.imageUrl)
  }

  /** No field has a message exactly when every rule holds. */
  lemma {:induction false} NoErrorsIffValid(values: FormValues, isEditSession: bool)
    ensures Errors(values, isEditSession) == map[] <==> IsValid(values, isEditSession)
  {
    var errors := Errors(values, isEditSession);
    if errors == map[] {
      assert Name !in errors && MaxCapacity !in errors && RegularPrice !in errors;
      assert Discount !in errors && Description !in errors && Photo !in errors;
      assert FieldError(Name, values, isEditSession).None?;
      assert FieldError(MaxCapacity, values, isEditSession).None?;
      assert FieldError(RegularPrice, values, isEditSession).None?;
      assert FieldError(Discount, values, isEditSession).None?;
      assert FieldError(Description, values, isEditSession).None?;
      assert FieldError(Photo, values, isEditSession).None?;
    } else {
      var field :| field in errors;
      assert FieldError(field, values, isEditSession).Some?;
    }
  }

  /** Numbers: capacity and regular price must be present and at least 1. */
  lemma CapacityAndPriceRules(values: FormValues, isEditSession: bool)
    ensures MaxCapacity !in Errors(values, isEditSession) <==>
              values.data.maxCapacity.Some? && values.data.maxCapacity.value >= 1
    ensures RegularPrice !in Errors(values, isEditSession) <==>
              values.data.regularPrice.Some? && values.data.regularPrice.value >= 1
    ensures values.data.maxCapacity.Some? && values.data.maxCapacity.value < 1 ==>
              Errors(values, isEditSession)[MaxCapacity] == CapacityMessage
    ensures values.data.regularPrice.Some? && values.data.regularPrice.value < 1 ==>
              Errors(values, isEditSession)[RegularPrice] == PriceMessage
  {
  }

  /** A discount equal to the regular price is accepted; only a larger one
      (or a missing price) is refused. */
  lemma DiscountRule(values: FormValues, isEditSession: bool)
    requires values.data.discount.Some?
    ensures Discount !in Errors(values, isEditSession) <==>
              values.data.regularPrice.Some? && values.data.discount.value <= values.data.regularPrice.value
    ensures Discount in Errors(values, isEditSession) ==> Errors(values, isEditSession)[Discount] == DiscountMessage
  {
  }

  /** The description is required only when creating a cabin. */
  lemma DescriptionRule(values: FormValues, isEditSession: bool)
    ensures Description in Errors(values, isEditSession) <==> !isEditSession && values.data.description == ""
  {
  }

  /** The photo input accepts a string or exactly one file. */
  lemma PhotoRule(values: FormValues, isEditSession: bool)
    ensures Photo !in Errors(values, isEditSession) <==>
              values.imageUrl.TextInput? || (values.imageUrl.FileList? && |values.imageUrl.files| == 1)
  {
  }

  // ---------------------------------------------------------------------
  // Submission
  // ---------------------------------------------------------------------

  /** `image_url[0]`, unless `image_url` is missing or empty. Indexing a
      string yields its first character. */
  function FirstImage(input: PhotoInput): (image: Option<Image>)
    ensures image.None? <==> input.Unset? || input == TextInput("") || input == FileList([])
    ensures image.Some? && input.FileList? ==> image.value == Picked(input.files[0])
    ensures image.Some? && input.TextInput? ==> image.value == Address([input.s[0]])
    ensures image.Some? ==> image.value != NoImage
  {
    match input
    case Unset => None
    case TextInput(s) => if s == "" then None else Some(Address([s[0]]))
    case FileList(files) => if files == [] then None else Some(Picked(files[0]))
  }

  /** `onSubmit(data)`. */
  function OnSubmit(values: FormValues, cabinToEdit: Option<Cabin>): (s: Submission)
    ensures !s.Rejected?
    ensures s.NoImageSelected? <==> FirstImage(values.imageUrl).None?
    ensures s.Mutate? ==> s.mutation.cabin.image == FirstImage(values.imageUrl).value
    ensures s.Mutate? ==> s.mutation.cabin.(image := values.data.image) == values.data
    ensures s.Mutate? ==> (s.mutation.EditCabin? <==> IsEditSession(cabinToEdit))
    ensures s.Mutate? && s.mutation.EditCabin? ==>
              TruthyNumber(Some(s.mutation.editId)) && EditId(cabinToEdit) == Some(s.mutation.editId)
  {
    match FirstImage(values.imageUrl)
    case None => NoImageSelected
    case Some(image) =>
      var payload := values.data.(image := image);
      if IsEditSession(cabinToEdit) then Mutate(EditCabin(payload, EditId(cabinToEdit).value))
      else Mutate(CreateCabin(payload))
  }

  /** `handleSubmit(onSubmit, onError)`: the rules first, then `onSubmit`. */
  function HandleSubmit(values: FormValues, cabinToEdit: Option<Cabin>): (s: Submission)
    ensures s.Rejected? <==> !IsValid(values, IsEditSession(cabinToEdit))
    ensures s.Rejected? ==> s.errors == Errors(values, IsEditSession(cabinToEdit)) && s.errors != map[]
    ensures !s.Rejected? ==> s == OnSubmit(values, cabinToEdit)
  {
    var errors := Errors(values, IsEditSession(cabinToEdit));
    NoErrorsIffValid(values, IsEditSession(cabinToEdit));
    if errors != map[] then Rejected(errors) else OnSubmit(values, cabinToEdit)
  }

  /** A valid form whose photo input is a string or a single file always
      reaches a mutation; the string case never reports a missing image
      unless the string is empty. */
  lemma ValidFormWithImageMutates(values: FormValues, cabinToEdit: Option<Cabin>)
    requires IsValid(values, IsEditSession(cabinToEdit))
    ensures HandleSubmit(values, cabinToEdit).NoImageSelected? <==> values.imageUrl == TextInput("")
    ensures values.imageUrl != TextInput("") ==> HandleSubmit(values, cabinToEdit).Mutate?
  {
  }

  /** A discount above the regular price never reaches the backend. */
  lemma DiscountAbovePriceIsRejected(values: FormValues, cabinToEdit: Option<Cabin>)
    requires values.data.discount.Some? && values.data.regularPrice.Some?
    requires values.data.discount.value > values.data.regularPrice.value
    ensures HandleSubmit(values, cabinToEdit).Rejected?
    ensures HandleSubmit(values, cabinToEdit).errors[Discount] == DiscountMessage
  {
    DiscountRule(values, IsEditSession(cabinToEdit));
  }

  /** The id a mutation passes to `createEditCabin`: the create mutation
      hands over only the cabin, so its id is `undefined` and the write is
      an insert; the edit mutation passes `editId`. */
  function MutationId(m: Mutation): (id: Option<int>)
    ensures m.CreateCabin? ==> !TruthyNumber(id)
    ensures id.Some? <==> m.EditCabin?
    ensures m.EditCabin? ==> id.value == m.editId
  {
    match m
    case CreateCabin(_) => None
    case EditCabin(_, editId) => Some(editId)
  }

  /** From the form to the table. A picked file whose upload fails ends the
      run with no write. Otherwise exactly one write ends it: an update of
      the edited cabin in an edit session, an insert of a new one
      otherwise, and the row written is the form's data with only the
      image replaced. */
  lemma SubmissionWritesOnce(
    values: FormValues, cabinToEdit: Option<Cabin>, supabaseUrl: string, random: string,
    upload: UploadReply, write: WriteReply)
    requires HandleSubmit(values, cabinToEdit).Mutate?
    ensures var m := HandleSubmit(values, cabinToEdit).mutation;
            var run := CreateEditCabin(m.cabin, MutationId(m), supabaseUrl, random, upload, write);
            values.imageUrl.FileList? && upload.UploadFailed? ==>
              && run.calls == [UploadCall(Bucket, ObjectName(random, m.cabin.image), m.cabin.image)]
              && run.result == Err(UploadFailedMessage)
    ensures var m := HandleSubmit(values, cabinToEdit).mutation;
            var run := CreateEditCabin(m.cabin, MutationId(m), supabaseUrl, random, upload, write);
            var last := run.calls[|run.calls| - 1];
            !(run.calls[0].UploadCall? && upload.UploadFailed?) ==>
              && last.IsWrite()
              && (forall i :: 0 <= i < |run.calls| - 1 ==> !run.calls[i].IsWrite())
              && (last.UpdateCall? <==> IsEditSession(cabinToEdit))
              && (last.UpdateCall? ==> Some(last.id) == EditId(cabinToEdit))
              && last.row.(image := values.data.image) == values.data
  {
  }
}
