/** The admin page for companies: a form that either adds a new company or saves an edited one. */
module ManageCompanies {
  import opened Domain

  const RequiredMessage := "Company Name and Location are required!"

  /** The company form; `id` is None for a new company. The blank form has no next-communication date
      and no log; a company loaded for editing brings its own, and an edit submit sends them back. */
  datatype CompanyForm = CompanyForm(
    id: Option<Id>,
    name: string,
    location: string,
    linkedInProfile: string,
    emails: string,
    phoneNumbers: string,
    comments: string,
    communicationPeriodicity: string,
    nextCommunication: Option<Date>,
    lastCommunications: seq<Comm>)

  /** The store call a submit makes. */
  datatype Dispatch = AddCompanyCall(form: CompanyForm) | UpdateCompanyCall(form: CompanyForm)

  const BlankForm := CompanyForm(None, "", "", "", "", "", "", "", None, [])

  class CompanyAdmin {
    var company: CompanyForm
    var isEditing: bool
    var showForm: bool
    var errorMessage: string

    constructor ()
      ensures company == BlankForm && !isEditing && !showForm && errorMessage == ""
    {
      company, isEditing, showForm, errorMessage := BlankForm, false, false, "";
    }

    /** resetForm: a blank form, not editing, hidden. */
    method ResetForm()
      modifies this`company, this`isEditing, this`showForm
      ensures company == BlankForm && !isEditing && !showForm
    {
      company, isEditing, showForm := BlankForm, false, false;
    }

    /** handleEdit: loads the whole company, its next-communication date and populated log included,
        and shows the form in edit mode. */
    method HandleEdit(companyToEdit: CompanyForm)
      modifies this`company, this`isEditing, this`showForm
      ensures company == companyToEdit && isEditing && showForm
    {
      company, isEditing, showForm := companyToEdit, true, true;
    }

    /** handleSubmit: without a name or a location it only sets the error; otherwise it clears the error,
        dispatches an update when editing and an add otherwise, and resets the form. */
    method HandleSubmit() returns (dispatched: Option<Dispatch>)
      modifies this
      ensures old(company.name) == "" || old(company.location) == "" ==>
        dispatched.None? && errorMessage == RequiredMessage
        && company == old(company) && isEditing == old(isEditing) && showForm == old(showForm)
      ensures old(company.name) != "" && old(company.location) != "" ==>
        && dispatched == Some(if old(isEditing) then UpdateCompanyCall(old(company)) else AddCompanyCall(old(company)))
        && errorMessage == "" && company == BlankForm && !isEditing && !showForm
    {
      if company.name == "" || company.location == "" {
        errorMessage := RequiredMessage;
        return None;
      }
      errorMessage := "";
      if isEditing {
        dispatched := Some(UpdateCompanyCall(company));
      } else {
        dispatched := Some(AddCompanyCall(company));
      }
      ResetForm();
    }
  }
}

/** The admin page for communication methods: an add form, and an edit form shown while a method is
    being edited. */
module ManageMethods {
  import opened Domain

  /** The add form. */
  datatype MethodForm = MethodForm(name: string, description: string, sequence: int, mandatory: bool)

  datatype Dispatch = AddMethodCall(form: MethodForm) | UpdateMethodCall(edited: Method)

  /** A blank add form proposes the position after the last method. */
  function BlankForm(methodCount: nat): (r: MethodForm)
    ensures r.name == "" && r.description == "" && !r.mandatory
    ensures r.sequence == methodCount + 1 && r.sequence > methodCount
  {
    MethodForm("", "", methodCount + 1, false)
  }

  class MethodAdmin {
    var newMethod: MethodForm
    var editingMethod: Option<Method>

    /** The page opens with a blank add form numbered after the current methods, and no edit form. */
    constructor (methodCount: nat)
      ensures newMethod == BlankForm(methodCount) && editingMethod.None?
    {
      newMethod := BlankForm(methodCount);
      editingMethod := None;
    }

    /** Which form is shown: the edit form exactly when a method is being edited. */
    function ShowsEditForm(): bool
      reads this
    {
      editingMethod.Some?
    }

    /** handleAddMethod: adds only when both name and description are filled in, then blanks the form,
        numbered after the methods the page currently shows. */
    method HandleAddMethod(methodCount: nat) returns (dispatched: Option<Dispatch>)
      modifies this`newMethod
      ensures old(newMethod.name) != "" && old(newMethod.description) != "" ==>
        dispatched == Some(AddMethodCall(old(newMethod))) && newMethod == BlankForm(methodCount)
      ensures old(newMethod.name) == "" || old(newMethod.description) == "" ==>
        dispatched.None? && newMethod == old(newMethod)
    {
      dispatched := None;
      if newMethod.name != "" && newMethod.description != "" {
        dispatched := Some(AddMethodCall(newMethod));
        newMethod := BlankForm(methodCount);
      }
    }

    /** The Edit button: shows the edit form for the method. */
    method StartEdit(m: Method)
      modifies this`editingMethod
      ensures editingMethod == Some(m) && ShowsEditForm()
    {
      editingMethod := Some(m);
    }

    /** The edit form's submit: saves the edited method and leaves edit mode. It is reachable only while
        the edit form is shown. */
    method SubmitEdit() returns (dispatched: Dispatch)
      requires ShowsEditForm()
      modifies this`editingMethod
      ensures dispatched == UpdateMethodCall(old(editingMethod).value)
      ensures editingMethod.None? && !ShowsEditForm()
    {
      dispatched := UpdateMethodCall(editingMethod.value);
      editingMethod := None;
    }

    /** The edit form's Cancel: leaves edit mode without saving. */
    method CancelEdit()
      modifies this`editingMethod
      ensures editingMethod.None? && !ShowsEditForm()
    {
      editingMethod := None;
    }
  }
}
