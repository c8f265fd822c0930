/** The new-group form: editing its fields and the check made before creating the group. */
module CreateGroup {
  import opened Optional
  import opened Strings
  import opened Server

  datatype GroupForm = GroupForm(name: string, description: string, isPrivate: bool)

  /** A new group starts public. */
  const InitialForm := GroupForm("", "", false)

  /** The form's inputs: two text fields and the private checkbox. */
  datatype TextField = Name | Description

  /** A change event: text inputs carry their value, the checkbox its `checked` flag. */
  datatype ChangeEvent = TextChange(field: TextField, value: string) | CheckboxChange(checked: bool)

  /** `handleChange`: only the named field changes, to the text typed or to the box's state. */
  function HandleChange(form: GroupForm, event: ChangeEvent): (r: GroupForm)
    ensures event.TextChange? && event.field == Name ==> r == form.(name := event.value)
    ensures event.TextChange? && event.field == Description ==> r == form.(description := event.value)
    ensures event.CheckboxChange? ==> r == form.(isPrivate := event.checked)
  {
    match event
    case TextChange(Name, value) => form.(name := value)
    case TextChange(Description, value) => form.(description := value)
    case CheckboxChange(checked) => form.(isPrivate := checked)
  }

  const MissingFieldsMessage := "Please fill in all fields"

  /** `!formData.name || !formData.description`: an empty name or description stops the submit. */
  function FormCheck(form: GroupForm): (r: Option<string>)
    ensures r == None <==> form.name != "" && form.description != ""
    ensures r != None ==> r == Some(MissingFieldsMessage)
  {
    if form.name == "" || form.description == "" then Some(MissingFieldsMessage) else None
  }

  /** The check reads the raw text, so a name of spaces only is let through. */
  lemma BlankNamePasses(form: GroupForm)
    requires form.description != "" && form.name != "" && IsBlank(form.name)
    ensures FormCheck(form) == None
  {
  }

  /** A submit's result: the error shown, the form sent if any, and the new group's id to go to. */
  datatype Submitted = Submitted(error: string, sent: Option<GroupForm>, openGroup: Option<string>)

  /** `handleSubmit`; on success the server answers with the new group's id. */
  function HandleSubmit(form: GroupForm, reply: Reply<string>): (r: Submitted)
    ensures FormCheck(form).Some? ==> r == Submitted(MissingFieldsMessage, None, None)
    ensures FormCheck(form) == None ==> r.sent == Some(form)
    ensures FormCheck(form) == None && reply.Ok? ==> r.error == "" && r.openGroup == Some(reply.data)
    ensures FormCheck(form) == None && reply.Failed? ==>
      r.error == OrElse(reply.message, "Error creating group") && r.openGroup == None
  {
    if FormCheck(form).Some? then Submitted(MissingFieldsMessage, None, None)
    else
      match reply
      case Ok(groupId) => Submitted("", Some(form), Some(groupId))
      case Failed(message) => Submitted(OrElse(message, "Error creating group"), Some(form), None)
  }

  /** Filling in both text fields of a fresh form is enough to send it, as a public group. */
  lemma FilledFormIsSent(name: string, description: string, reply: Reply<string>)
    requires name != "" && description != ""
    ensures HandleSubmit(HandleChange(HandleChange(InitialForm, TextChange(Name, name)), TextChange(Description, description)), reply).sent
      == Some(GroupForm(name, description, false))
  {
  }
}
